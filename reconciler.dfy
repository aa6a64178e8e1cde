/** The decisions `build_interface` takes on a parsed document: the `auto` list, the
    replaced block, and whether the file has to be rewritten (`sync`). */
module Reconciler {
  import opened Outcomes
  import opened Assoc
  import opened Documents
  import opened Stanza

  // ---------------------------------------------------------------------------
  // The auto list

  /** Python's `list.remove(x)`: the first occurrence goes, the rest keep their order. */
  function RemoveFirst(xs: seq<string>, x: string): (r: seq<string>)
    requires x in xs
    ensures |r| == |xs| - 1
    decreases |xs|
  {
    if xs[0] == x then xs[1..] else [xs[0]] + RemoveFirst(xs[1..], x)
  }

  /** `list.remove` takes out exactly one occurrence of `x` and nothing else. */
  lemma {:induction false} RemoveFirstCount(xs: seq<string>, x: string)
    requires x in xs
    ensures multiset(RemoveFirst(xs, x)) == multiset(xs) - multiset{x}
    decreases |xs|
  {
    assert xs == [xs[0]] + xs[1..];
    if xs[0] != x {
      RemoveFirstCount(xs[1..], x);
    }
  }

  /** `list.remove` cuts at the first occurrence, at index `i`. */
  lemma {:induction false} RemoveFirstAt(xs: seq<string>, x: string) returns (i: nat)
    requires x in xs
    ensures i < |xs| && xs[i] == x && x !in xs[..i]
    ensures RemoveFirst(xs, x) == xs[..i] + xs[i + 1..]
    decreases |xs|
  {
    if xs[0] == x {
      i := 0;
      assert xs[..0] == [];
    } else {
      var tail := xs[1..];
      var j := RemoveFirstAt(tail, x);
      i := j + 1;
      assert xs[..i] == [xs[0]] + tail[..j];
      assert xs[i + 1..] == tail[j + 1..];
      ConcatAssoc([xs[0]], tail[..j], tail[j + 1..]);
    }
  }

  /** The `auto` list after the update at the start of `build_interface`: only an
      `iface` build touches it; enabling appends the name when it is missing, and
      disabling removes its first occurrence when it is there. */
  function UpdateAuto(auto: seq<string>, kind: BlockKind, name: string, enabled: bool): seq<string> {
    if kind != Iface then auto
    else if enabled then (if name in auto then auto else auto + [name])
    else if name in auto then RemoveFirst(auto, name)
    else auto
  }

  /** The `auto` update changes the list exactly when the build is for an `iface` and
      the name's presence disagrees with `enabled`. */
  lemma AutoChanged(auto: seq<string>, kind: BlockKind, name: string, enabled: bool)
    ensures UpdateAuto(auto, kind, name, enabled) != auto <==> kind == Iface && (enabled <==> name !in auto)
  {
    if kind == Iface && !enabled && name in auto {
      assert |RemoveFirst(auto, name)| != |auto|;
    }
    if kind == Iface && enabled && name !in auto {
      assert |auto + [name]| != |auto|;
    }
  }

  /** What the update does to each name's number of occurrences: enabling makes the
      name present (adding one occurrence if it had none), disabling takes one
      occurrence away, and every other name keeps its count. */
  lemma AutoCounts(auto: seq<string>, kind: BlockKind, name: string, enabled: bool)
    ensures var r := UpdateAuto(auto, kind, name, enabled);
      && (kind == Mapping ==> r == auto)
      && (kind == Iface && enabled ==> multiset(r)[name] == if name in auto then multiset(auto)[name] else 1)
      && (kind == Iface && !enabled ==> multiset(r)[name] == if name in auto then multiset(auto)[name] - 1 else 0)
      && forall y :: y != name ==> multiset(r)[y] == multiset(auto)[y]
  {
    if kind == Iface && !enabled && name in auto {
      RemoveFirstCount(auto, name);
    }
  }

  /** Enabling always leaves the name in the list; disabling removes it when it
      occurred at most once. */
  lemma AutoMembership(auto: seq<string>, name: string)
    ensures name in UpdateAuto(auto, Iface, name, true)
    ensures multiset(auto)[name] <= 1 ==> name !in UpdateAuto(auto, Iface, name, false)
  {
    AutoCounts(auto, Iface, name, false);
  }

  /** A second identical update changes nothing, provided a disabled name occurred at
      most once. */
  lemma AutoSettles(auto: seq<string>, kind: BlockKind, name: string, enabled: bool)
    requires enabled || multiset(auto)[name] <= 1
    ensures UpdateAuto(UpdateAuto(auto, kind, name, enabled), kind, name, enabled) == UpdateAuto(auto, kind, name, enabled)
  {
    AutoMembership(auto, name);
  }

  /** `list.remove` takes out only the first of two occurrences, so disabling a name
      listed twice leaves it enabled, and a repeat of the call changes the file again. */
  lemma DuplicateAutoLingers()
    ensures UpdateAuto(["eth0", "eth0"], Iface, "eth0", false) == ["eth0"]
    ensures UpdateAuto(["eth0"], Iface, "eth0", false) == []
  {
    assert ["eth0", "eth0"][1..] == ["eth0"];
  }

  // ---------------------------------------------------------------------------
  // The settings the builder sees

  /** The keys the state system adds, deleted by the loop at the start of
      `build_interface`. */
  const AutoAdded: seq<string> := ["state", "order", "fun"]

  /** The settings after `config` is popped, `state`, `order` and `fun` are deleted and
      `test` is popped. */
  function Prepared(settings: Settings): Settings {
    Remove(RemoveAll(Remove(settings, "config"), AutoAdded), "test")
  }

  /** None of the orchestration keys reaches the builder, and every other setting
      reaches it unchanged. */
  lemma PreparedKeys(settings: Settings, k: string)
    ensures forall x :: x in ["config", "state", "order", "fun", "test"] ==> x !in Keys(Prepared(settings))
    ensures k !in ["config", "state", "order", "fun", "test"] ==> Get(Prepared(settings), k) == Get(settings, k)
  {
    var s1 := Remove(settings, "config");
    var s2 := Remove(s1, "state");
    var s3 := Remove(s2, "order");
    var s4 := Remove(s3, "fun");
    assert AutoAdded[..2] == ["state", "order"] && ["state", "order"][..1] == ["state"] && ["state"][..0] == [];
    assert RemoveAll(s1, AutoAdded) == s4;
    RemoveKeeps(s1, "state", "config");
    RemoveKeeps(s2, "order", "config");
    RemoveKeeps(s3, "fun", "config");
    RemoveKeeps(s4, "test", "config");
    RemoveKeeps(s2, "order", "state");
    RemoveKeeps(s3, "fun", "state");
    RemoveKeeps(s4, "test", "state");
    RemoveKeeps(s3, "fun", "order");
    RemoveKeeps(s4, "test", "order");
    RemoveKeeps(s4, "test", "fun");
    if k !in ["config", "state", "order", "fun", "test"] {
      GetRemove(settings, "config", k);
      GetRemove(s1, "state", k);
      GetRemove(s2, "order", k);
      GetRemove(s3, "fun", k);
      GetRemove(s4, "test", k);
    }
  }

  /** The value `settings.pop('test', False)` reads is the caller's own: the earlier
      deletions do not touch it. */
  lemma TestSurvives(settings: Settings)
    ensures Get(RemoveAll(Remove(settings, "config"), AutoAdded), "test") == Get(settings, "test")
  {
    var s1 := Remove(settings, "config");
    assert AutoAdded[..2] == ["state", "order"] && ["state", "order"][..1] == ["state"] && ["state"][..0] == [];
    assert RemoveAll(s1, AutoAdded) == Remove(Remove(Remove(s1, "state"), "order"), "fun");
    GetRemove(settings, "config", "test");
    GetRemove(s1, "state", "test");
    GetRemove(Remove(s1, "state"), "order", "test");
    GetRemove(Remove(Remove(s1, "state"), "order"), "fun", "test");
  }

  /** Python truthiness of `settings.pop('test', False)`: an empty string or an empty
      list is false, anything else is true. */
  function Truthy(v: Option<Value>): bool {
    match v
    case None => false
    case Some(Scalar(s)) => s != ""
    case Some(Multi(xs)) => xs != []
  }

  /** The settings handling of `build_interface` on its private copy: `config` is
      popped, the loop deletes `state`, `order` and `fun`, and `test` is popped and read
      for its truth value. */
  method PrepareSettings(settings: Settings) returns (s: Settings, testing: bool)
    ensures s == Prepared(settings)
    ensures testing == Truthy(Get(settings, "test"))
  {
    s := Remove(settings, "config");
    s := DeleteKeys(s, AutoAdded);
    TestSurvives(settings);
    testing := Truthy(Get(s, "test"));
    s := Remove(s, "test");
  }

  /** `for x in keys: if x in settings: del settings[x]`. */
  method DeleteKeys(settings: Settings, keys: seq<string>) returns (s: Settings)
    ensures s == RemoveAll(settings, keys)
  {
    s := settings;
    for i := 0 to |keys|
      invariant s == RemoveAll(settings, keys[..i])
    {
      assert keys[..i + 1][..i] == keys[..i];
      s := Remove(s, keys[i]);
    }
    assert keys[..|keys|] == keys;
  }

  // ---------------------------------------------------------------------------
  // Replacing the block

  /** What one reconciliation produces: the new document, the block's lines, and
      whether the file needs rewriting. */
  datatype Outcome = Outcome(doc: Document, lines: Lines, sync: bool)

  /** The `auto` update, the build, and the block replacement of `build_interface`:
      the `(kind, name)` block becomes the built lines, created (with its kind's table)
      when missing; `sync` records whether the list or the block changed. */
  function Reconcile(doc: Document, kind: BlockKind, name: string, enabled: bool, s: Settings): Result<Outcome> {
    var auto := UpdateAuto(doc.auto, kind, name, enabled);
    match BlockFor(kind, name, s)
    case Err(e) => Err(e)
    case Ok(lines) =>
      var before := BlockOf(doc.stanzas, kind.Name(), name).GetOr([]);
      Ok(Outcome(Document(auto, PutBlock(doc.stanzas, kind.Name(), name, lines)), lines,
                 auto != doc.auto || before != lines))
  }

  /** A built block always has its header line. */
  lemma BlockForHeader(kind: BlockKind, name: string, s: Settings)
    ensures BlockFor(kind, name, s).Ok? ==> BlockFor(kind, name, s).value != []
  {
    match kind
    case Mapping =>
    case Iface =>
      if IfaceBlock(name, s).Ok? {
        assert exists h, t, o :: IfaceBlock(name, s).value == StanzaOf(h, t, o);
      }
  }

  /** `sync` is true exactly when the document changed. */
  lemma SyncIffChanged(doc: Document, kind: BlockKind, name: string, enabled: bool, s: Settings)
    requires Reconcile(doc, kind, name, enabled, s).Ok?
    ensures var o := Reconcile(doc, kind, name, enabled, s).value; o.sync <==> o.doc != doc
  {
    var o := Reconcile(doc, kind, name, enabled, s).value;
    var k := kind.Name();
    BlockForHeader(kind, name, s);
    BlockOfPutBlock(doc.stanzas, k, name, o.lines, k, name);
    if BlockOf(doc.stanzas, k, name) == Some(o.lines) {
      PutBlockSame(doc.stanzas, k, name, o.lines);
    }
  }

  /** After reconciliation the block holds the built lines, every other block is as it
      was, and the `auto` list is the updated one. */
  lemma ReconcileFrame(doc: Document, kind: BlockKind, name: string, enabled: bool, s: Settings, kind': string, name': string)
    requires Reconcile(doc, kind, name, enabled, s).Ok?
    ensures var o := Reconcile(doc, kind, name, enabled, s).value;
      && o.doc.auto == UpdateAuto(doc.auto, kind, name, enabled)
      && o.lines == BlockFor(kind, name, s).value
      && BlockOf(o.doc.stanzas, kind', name') ==
         if kind' == kind.Name() && name' == name then Some(o.lines) else BlockOf(doc.stanzas, kind', name')
  {
    BlockOfPutBlock(doc.stanzas, kind.Name(), name, BlockFor(kind, name, s).value, kind', name');
  }

  /** Reconciling the result again with the same request changes nothing and needs no
      rewrite, provided a disabled name occurred at most once in `auto`. */
  lemma ReconcileSettles(doc: Document, kind: BlockKind, name: string, enabled: bool, s: Settings)
    requires Reconcile(doc, kind, name, enabled, s).Ok?
    requires enabled || multiset(doc.auto)[name] <= 1
    ensures var o := Reconcile(doc, kind, name, enabled, s).value;
      Reconcile(o.doc, kind, name, enabled, s) == Ok(Outcome(o.doc, o.lines, false))
  {
    var o := Reconcile(doc, kind, name, enabled, s).value;
    AutoSettles(doc.auto, kind, name, enabled);
    BlockOfPutBlock(doc.stanzas, kind.Name(), name, o.lines, kind.Name(), name);
    PutBlockTwice(doc.stanzas, kind.Name(), name, o.lines, o.lines);
  }

  // ---------------------------------------------------------------------------
  // The same decisions, step by step as `build_interface` takes them

  /** The `auto` update: append when enabling an absent name, `list.remove` when
      disabling a present one; `changed` is the `sync = True` of those branches. */
  method UpdateAutoList(auto: seq<string>, kind: BlockKind, name: string, enabled: bool)
    returns (auto': seq<string>, changed: bool)
    ensures auto' == UpdateAuto(auto, kind, name, enabled)
    ensures changed <==> auto' != auto
  {
    auto', changed := auto, false;
    if kind == Iface {
      if enabled {
        if name !in auto {
          auto', changed := auto + [name], true;
        }
      } else if name in auto {
        auto', changed := RemoveFirst(auto, name), true;
      }
    }
    AutoChanged(auto, kind, name, enabled);
  }

  /** The block replacement: create the kind's table and an empty block when missing,
      then assign the lines if they differ; `changed` is the `sync = True` of that
      branch. */
  method ReplaceBlock(stanzas: Table<Blocks>, kind: string, name: string, lines: Lines)
    returns (stanzas': Table<Blocks>, changed: bool)
    ensures stanzas' == PutBlock(stanzas, kind, name, lines)
    ensures changed <==> BlockOf(stanzas, kind, name).GetOr([]) != lines
  {
    stanzas' := stanzas;
    if kind !in Keys(stanzas') {
      stanzas' := stanzas' + [(kind, [])];
      PutBlockAfterNewKind(stanzas, kind, name, lines);
      GetAppended(stanzas, kind, [], kind);
    }
    var table := TableOf(stanzas', kind);
    if name !in Keys(table) {
      var created := PutBlock(stanzas', kind, name, []);
      BlockOfPutBlock(stanzas', kind, name, [], kind, name);
      PutBlockTwice(stanzas', kind, name, [], lines);
      stanzas' := created;
    }
    changed := false;
    if Get(TableOf(stanzas', kind), name) != Some(lines) {
      PutBlockTwice(stanzas, kind, name, BlockOf(stanzas, kind, name).GetOr([]), lines);
      stanzas' := PutBlock(stanzas', kind, name, lines);
      changed := true;
    } else {
      PutBlockSame(stanzas', kind, name, lines);
    }
  }

  /** The middle of `build_interface`: `updated` is the document once its `auto` list
      is updated, which is what the cache holds if the build then fails; `r` is the
      whole reconciliation. */
  method ReconcileDocument(doc: Document, kind: BlockKind, name: string, enabled: bool, s: Settings)
    returns (updated: Document, r: Result<Outcome>)
    ensures updated == doc.(auto := UpdateAuto(doc.auto, kind, name, enabled))
    ensures r == Reconcile(doc, kind, name, enabled, s)
  {
    var auto, sync := UpdateAutoList(doc.auto, kind, name, enabled);
    updated := doc.(auto := auto);
    var built := Build(kind, name, s);
    if built.Err? {
      return updated, Err(built.error);
    }
    var lines := built.value;
    var stanzas, changed := ReplaceBlock(updated.stanzas, kind.Name(), name, lines);
    r := Ok(Outcome(updated.(stanzas := stanzas), lines, sync || changed));
  }
}
