/** `_build_stanza`, `_build_iface` and `_build_mapping`: one block rendered from a
    settings dictionary. */
module Stanza {
  import opened Outcomes
  import opened Assoc
  import opened Documents
  import opened Parser
  import opened Options

  /** A settings value: a string, or a list of strings giving one line each. */
  datatype Value = Scalar(s: string) | Multi(items: seq<string>)

  /** A settings dictionary, in its iteration order. */
  type Settings = Table<Value>

  /** The values a setting renders: a string stands for itself alone. */
  function Items(v: Value): seq<string> {
    match v
    case Scalar(s) => [s]
    case Multi(xs) => xs
  }

  /** `"%s%s %s" % (_INDENT, k, item)`. */
  function OptionLine(k: string, item: string): string {
    Indent + k + " " + item
  }

  /** One line per item, in the items' order. */
  function KeyLines(k: string, items: seq<string>): seq<string>
    decreases |items|
  {
    if items == [] then [] else [OptionLine(k, items[0])] + KeyLines(k, items[1..])
  }

  lemma {:induction false} KeyLinesAppend(k: string, items: seq<string>, x: string)
    ensures KeyLines(k, items + [x]) == KeyLines(k, items) + [OptionLine(k, x)]
    decreases |items|
  {
    if items == [] {
      assert [x][1..] == [];
    } else {
      assert (items + [x])[1..] == items[1..] + [x];
      KeyLinesAppend(k, items[1..], x);
    }
  }

  /** The private-key test `k[0:1] == '__'`, as written: a slice of at most one
      character compared with a two-character string. */
  predicate Private(k: string) {
    (if |k| == 0 then k else k[..1]) == "__"
  }

  /** The settings left after `del settings[k]` for every ordering key present. */
  function RemoveAll(s: Settings, opts: seq<string>): Settings
    decreases |opts|
  {
    if opts == [] then s else Remove(RemoveAll(s, opts[..|opts| - 1]), opts[|opts| - 1])
  }

  /** The lines of the first loop: for each ordering key still in the settings, its
      lines, after which the key is deleted. */
  function OrderedLines(s: Settings, opts: seq<string>): seq<string>
    decreases |opts|
  {
    if opts == [] then []
    else
      var init := opts[..|opts| - 1];
      var k := opts[|opts| - 1];
      OrderedLines(s, init) +
        match Get(RemoveAll(s, init), k)
        case None => []
        case Some(v) => KeyLines(k, Items(v))
  }

  /** The lines of the second loop, over the settings that remain. */
  function LeftoverLines(t: Settings): seq<string>
    decreases |t|
  {
    if t == [] then []
    else
      var e := t[|t| - 1];
      LeftoverLines(t[..|t| - 1]) + (if Private(e.0) then [] else KeyLines(e.0, Items(e.1)))
  }

  /** The block `_build_stanza` returns. */
  function StanzaOf(header: string, s: Settings, opts: seq<string>): Lines {
    [header] + OrderedLines(s, opts) + LeftoverLines(RemoveAll(s, opts))
  }

  /** The inner `for item in v` loop: one option line per item. */
  method AppendItems(result: Lines, k: string, items: seq<string>) returns (out: Lines)
    ensures out == result + KeyLines(k, items)
  {
    out := result;
    var j := 0;
    while j < |items|
      invariant 0 <= j <= |items|
      invariant out == result + KeyLines(k, items[..j])
    {
      KeyLinesAppend(k, items[..j], items[j]);
      assert items[..j + 1] == items[..j] + [items[j]];
      out := out + [OptionLine(k, items[j])];
      j := j + 1;
    }
    assert items[..j] == items;
  }

  lemma OrderedStep(s: Settings, opts: seq<string>, i: nat)
    requires i < |opts|
    ensures RemoveAll(s, opts[..i + 1]) == Remove(RemoveAll(s, opts[..i]), opts[i])
    ensures OrderedLines(s, opts[..i + 1]) == OrderedLines(s, opts[..i]) +
      match Get(RemoveAll(s, opts[..i]), opts[i])
      case None => []
      case Some(v) => KeyLines(opts[i], Items(v))
  {
    assert opts[..i + 1][..i] == opts[..i];
  }

  /** One more ordering key considered: if it is still in the settings, its lines are
      appended and it is deleted; otherwise nothing changes. */
  lemma OrderedNext(header: string, s: Settings, opts: seq<string>, i: nat, rest: Settings, result: Lines)
    requires i < |opts|
    requires rest == RemoveAll(s, opts[..i]) && result == [header] + OrderedLines(s, opts[..i])
    ensures Get(rest, opts[i]).None? ==>
      rest == RemoveAll(s, opts[..i + 1]) && result == [header] + OrderedLines(s, opts[..i + 1])
    ensures Get(rest, opts[i]).Some? ==>
      Remove(rest, opts[i]) == RemoveAll(s, opts[..i + 1]) &&
      result + KeyLines(opts[i], Items(Get(rest, opts[i]).value)) == [header] + OrderedLines(s, opts[..i + 1])
  {
    OrderedStep(s, opts, i);
    var found := Get(rest, opts[i]);
    if found.Some? {
      ConcatAssoc([header], OrderedLines(s, opts[..i]), KeyLines(opts[i], Items(found.value)));
    } else {
      assert OrderedLines(s, opts[..i + 1]) == OrderedLines(s, opts[..i]) + [];
    }
  }

  lemma ConcatAssoc<T>(a: seq<T>, b: seq<T>, c: seq<T>)
    ensures a + b + c == a + (b + c)
  {
  }

  /** The first loop of `_build_stanza`: each ordering key present in the settings
      gives its lines and is deleted from the settings. */
  method OrderedPart(header: string, settings: Settings, options: seq<string>) returns (result: Lines, rest: Settings)
    ensures result == [header] + OrderedLines(settings, options)
    ensures rest == RemoveAll(settings, options)
  {
    result := [header];
    rest := settings;
    var i := 0;
    assert options[..0] == [];
    while i < |options|
      invariant 0 <= i <= |options|
      invariant rest == RemoveAll(settings, options[..i])
      invariant result == [header] + OrderedLines(settings, options[..i])
    {
      var k := options[i];
      OrderedNext(header, settings, options, i, rest, result);
      var found := Get(rest, k);
      if found.Some? {
        rest := Remove(rest, k);
        result := AppendItems(result, k, Items(found.value));
      }
      i := i + 1;
    }
    assert options[..i] == options;
  }

  /** One more remaining setting considered. */
  lemma LeftoverNext(base: Lines, t: Settings, n: nat, out: Lines)
    requires n < |t| && out == base + LeftoverLines(t[..n])
    ensures Private(t[n].0) ==> out == base + LeftoverLines(t[..n + 1])
    ensures !Private(t[n].0) ==> out + KeyLines(t[n].0, Items(t[n].1)) == base + LeftoverLines(t[..n + 1])
  {
    assert t[..n + 1][..n] == t[..n];
    ConcatAssoc(base, LeftoverLines(t[..n]), KeyLines(t[n].0, Items(t[n].1)));
  }

  /** The second loop of `_build_stanza`: every remaining setting not filtered out as
      private gives its lines, in settings order. */
  method LeftoverPart(result: Lines, rest: Settings) returns (out: Lines)
    ensures out == result + LeftoverLines(rest)
  {
    out := result;
    var n := 0;
    assert rest[..0] == [];
    while n < |rest|
      invariant 0 <= n <= |rest|
      invariant out == result + LeftoverLines(rest[..n])
    {
      var k := rest[n].0;
      LeftoverNext(result, rest, n, out);
      if (if |k| == 0 then k else k[..1]) != "__" {
        out := AppendItems(out, k, Items(rest[n].1));
      }
      n := n + 1;
    }
    assert rest[..n] == rest;
  }

  /** `_build_stanza`. The source deletes the consumed keys from the dict its caller
      passes in; settings are a value here, so those deletions are invisible to a direct
      caller; the `rest` that `OrderedPart` returns is what that dict holds after the first loop. */
  method BuildStanza(header: string, settings: Settings, options: seq<string>) returns (result: Lines)
    ensures result == StanzaOf(header, settings, options)
  {
    var rest;
    result, rest := OrderedPart(header, settings, options);
    result := LeftoverPart(result, rest);
  }

  // ---------------------------------------------------------------------------
  // What a block holds

  /** The private-key filter never skips a key. */
  lemma NeverPrivate(k: string)
    ensures !Private(k)
  {
  }

  /** Every setting's lines, in settings order. */
  function AllLines(t: Settings): seq<string>
    decreases |t|
  {
    if t == [] then [] else KeyLines(t[0].0, Items(t[0].1)) + AllLines(t[1..])
  }

  /** The number of values, counting a string as one. */
  function TotalItems(t: Settings): nat
    decreases |t|
  {
    if t == [] then 0 else |Items(t[0].1)| + TotalItems(t[1..])
  }

  /** The settings whose keys are not ordering keys, in settings order. */
  function Others(s: Settings, opts: seq<string>): Settings
    decreases |s|
  {
    if s == [] then [] else (if s[0].0 in opts then [] else [s[0]]) + Others(s[1..], opts)
  }

  /** An independent reference definition of the ordered part: each ordering key, at
      its first occurrence in the ordering, contributes its values in order. */
  function Chosen(s: Settings, opts: seq<string>): seq<string>
    decreases |opts|
  {
    if opts == [] then []
    else
      var init := opts[..|opts| - 1];
      var k := opts[|opts| - 1];
      Chosen(s, init) +
        if k in init then []
        else match Get(s, k)
          case None => []
          case Some(v) => KeyLines(k, Items(v))
  }

  lemma {:induction false} KeyLinesLength(k: string, items: seq<string>)
    ensures |KeyLines(k, items)| == |items|
    decreases |items|
  {
    if items != [] {
      KeyLinesLength(k, items[1..]);
    }
  }

  lemma {:induction false} AllLinesLength(t: Settings)
    ensures |AllLines(t)| == TotalItems(t)
    decreases |t|
  {
    if t != [] {
      KeyLinesLength(t[0].0, Items(t[0].1));
      AllLinesLength(t[1..]);
    }
  }

  lemma {:induction false} AllLinesAppend(t: Settings, e: (string, Value))
    ensures AllLines(t + [e]) == AllLines(t) + KeyLines(e.0, Items(e.1))
    decreases |t|
  {
    if t == [] {
      assert [e][1..] == [];
    } else {
      assert (t + [e])[1..] == t[1..] + [e];
      AllLinesAppend(t[1..], e);
    }
  }

  /** The second loop renders every remaining setting. */
  lemma {:induction false} LeftoverAll(t: Settings)
    ensures LeftoverLines(t) == AllLines(t)
    decreases |t|
  {
    if t != [] {
      var init := t[..|t| - 1];
      LeftoverAll(init);
      NeverPrivate(t[|t| - 1].0);
      AllLinesAppend(init, t[|t| - 1]);
      assert init + [t[|t| - 1]] == t;
    }
  }

  lemma {:induction false} RemoveOthers(s: Settings, opts: seq<string>, k: string)
    ensures Remove(Others(s, opts), k) == Others(s, opts + [k])
    decreases |s|
  {
    if s != [] {
      var e := s[0];
      var o := Others(s[1..], opts);
      RemoveOthers(s[1..], opts, k);
      assert e.0 in opts + [k] <==> e.0 in opts || e.0 == k;
      if e.0 in opts {
        assert Others(s, opts) == o;
      } else {
        assert Others(s, opts) == [e] + o;
        if e.0 == k {
          assert Remove([e] + o, k) == Remove(o, k);
        } else {
          assert ([e] + o)[1..] == o;
          assert Remove([e] + o, k) == [e] + Remove(o, k);
        }
      }
    }
  }

  /** Deleting the ordering keys leaves exactly the other settings, in their order. */
  lemma {:induction false} RemoveAllOthers(s: Settings, opts: seq<string>)
    ensures RemoveAll(s, opts) == Others(s, opts)
    decreases |opts|
  {
    if opts == [] {
      OthersNone(s);
    } else {
      var init := opts[..|opts| - 1];
      RemoveAllOthers(s, init);
      RemoveOthers(s, init, opts[|opts| - 1]);
      assert init + [opts[|opts| - 1]] == opts;
    }
  }

  lemma {:induction false} OthersNone(s: Settings)
    ensures Others(s, []) == s
    decreases |s|
  {
    if s != [] {
      OthersNone(s[1..]);
    }
  }

  lemma {:induction false} GetOthers(s: Settings, opts: seq<string>, k: string)
    ensures Get(Others(s, opts), k) == if k in opts then None else Get(s, k)
    decreases |s|
  {
    if s != [] {
      var e := s[0];
      var o := Others(s[1..], opts);
      GetOthers(s[1..], opts, k);
      if e.0 in opts {
        assert Others(s, opts) == o;
      } else {
        assert Others(s, opts) == [e] + o;
        assert ([e] + o)[1..] == o;
        assert Get([e] + o, k) == if e.0 == k then Some(e.1) else Get(o, k);
      }
    }
  }

  /** The first loop emits each ordering key once, at its first place in the
      ordering, with all of its values. */
  lemma {:induction false} OrderedChosen(s: Settings, opts: seq<string>)
    ensures OrderedLines(s, opts) == Chosen(s, opts)
    decreases |opts|
  {
    if opts != [] {
      var init := opts[..|opts| - 1];
      OrderedChosen(s, init);
      RemoveAllOthers(s, init);
      GetOthers(s, init, opts[|opts| - 1]);
    }
  }

  /** A block: the header, then the ordering keys' lines in ordering order, then the
      lines of every other setting in settings order. */
  lemma StanzaLayout(header: string, s: Settings, opts: seq<string>)
    ensures StanzaOf(header, s, opts) == [header] + Chosen(s, opts) + AllLines(Others(s, opts))
  {
    OrderedChosen(s, opts);
    RemoveAllOthers(s, opts);
    LeftoverAll(Others(s, opts));
  }

  lemma {:induction false} RemoveUnique(t: Settings, k: string)
    requires Unique(t)
    ensures Unique(Remove(t, k))
    decreases |t|
  {
    if t != [] {
      RemoveUnique(t[1..], k);
      if t[0].0 != k {
        var rest := Remove(t[1..], k);
        RemoveElems(t[1..], k);
        var r := [t[0]] + rest;
        forall i, j | 0 <= i < j < |r| ensures r[i].0 != r[j].0 {
          if i == 0 {
            assert r[j] == rest[j - 1];
            assert rest[j - 1] in t[1..];
          }
        }
      }
    }
  }

  /** Taking one setting out of a dictionary takes out exactly its lines. */
  lemma {:induction false} AllLinesRemove(t: Settings, k: string, v: Value)
    requires Unique(t) && Get(t, k) == Some(v)
    ensures multiset(AllLines(t)) == multiset(KeyLines(k, Items(v))) + multiset(AllLines(Remove(t, k)))
    decreases |t|
  {
    if t[0].0 == k {
      assert k !in Keys(t[1..]) by {
        forall i | 0 <= i < |t[1..]| ensures t[1..][i].0 != k {
          assert t[1..][i] == t[i + 1];
        }
      }
    } else {
      assert Unique(t[1..]);
      AllLinesRemove(t[1..], k, v);
      assert Remove(t, k) == [t[0]] + Remove(t[1..], k);
      assert ([t[0]] + Remove(t[1..], k))[1..] == Remove(t[1..], k);
    }
  }

  lemma {:induction false} OrderedSplit(s: Settings, opts: seq<string>)
    requires Unique(s)
    ensures Unique(RemoveAll(s, opts))
    ensures multiset(OrderedLines(s, opts)) + multiset(AllLines(RemoveAll(s, opts))) == multiset(AllLines(s))
    decreases |opts|
  {
    if opts != [] {
      var init := opts[..|opts| - 1];
      var k := opts[|opts| - 1];
      OrderedSplit(s, init);
      var r := RemoveAll(s, init);
      RemoveUnique(r, k);
      match Get(r, k)
      case None =>
      case Some(v) =>
        AllLinesRemove(r, k, v);
    }
  }

  lemma StanzaBody(header: string, s: Settings, opts: seq<string>)
    ensures StanzaOf(header, s, opts)[0] == header
    ensures StanzaOf(header, s, opts)[1..] == OrderedLines(s, opts) + LeftoverLines(RemoveAll(s, opts))
  {
    var a := OrderedLines(s, opts);
    var b := LeftoverLines(RemoveAll(s, opts));
    assert [header] + a + b == [header] + (a + b);
  }

  lemma SameLength<T>(a: seq<T>, b: seq<T>)
    requires multiset(a) == multiset(b)
    ensures |a| == |b|
  {
    assert |a| == |multiset(a)|;
  }

  /** A block holds its header and then exactly the lines of all the settings,
      rearranged: one line per value, so `1 + TotalItems` lines in all. */
  lemma StanzaPermutation(header: string, s: Settings, opts: seq<string>)
    requires Unique(s)
    ensures StanzaOf(header, s, opts)[0] == header
    ensures multiset(StanzaOf(header, s, opts)[1..]) == multiset(AllLines(s))
    ensures |StanzaOf(header, s, opts)| == 1 + TotalItems(s)
  {
    StanzaBody(header, s, opts);
    OrderedSplit(s, opts);
    LeftoverAll(RemoveAll(s, opts));
    AllLinesLength(s);
    SameLength(StanzaOf(header, s, opts)[1..], AllLines(s));
  }

  // ---------------------------------------------------------------------------
  // The two builders

  function AsKey(v: Value): KeyValue {
    match v
    case Scalar(s) => Text(s)
    case Multi(_) => List
  }

  /** The `iface <name> <family> <method>` header line. */
  function IfaceHeader(iface: string, family: string, meth: string): string {
    "iface " + iface + " " + family + " " + meth
  }

  /** `_build_iface`: pop `family`, then `method`, look up the ordering, and build
      `iface <name> <family> <method>` from what is left of the settings. */
  function IfaceBlock(iface: string, s: Settings): Result<Lines> {
    match Get(s, "family")
    case None => Err(MissingKey("family"))
    case Some(f) =>
      var s1 := Remove(s, "family");
      match Get(s1, "method")
      case None => Err(MissingKey("method"))
      case Some(m) =>
        match IfaceOptions(AsKey(f), AsKey(m))
        case Err(e) => Err(e)
        case Ok(opts) => Ok(StanzaOf(IfaceHeader(iface, AsKey(f).s, AsKey(m).s), Remove(s1, "method"), opts))
  }

  method BuildIface(iface: string, settings: Settings) returns (r: Result<Lines>)
    ensures r == IfaceBlock(iface, settings)
  {
    var family := Get(settings, "family");
    if family.None? {
      return Err(MissingKey("family"));
    }
    var rest := Remove(settings, "family");
    var meth := Get(rest, "method");
    if meth.None? {
      return Err(MissingKey("method"));
    }
    rest := Remove(rest, "method");
    var options := IfaceOptions(AsKey(family.value), AsKey(meth.value));
    if options.Err? {
      return Err(options.error);
    }
    var lines := BuildStanza(IfaceHeader(iface, AsKey(family.value).s, AsKey(meth.value).s), rest, options.value);
    return Ok(lines);
  }

  /** `_build_mapping`: `mapping <names>`, ordered by `script` then `map`. */
  function MappingBlock(names: string, s: Settings): Lines {
    StanzaOf("mapping " + names, s, MappingOptions)
  }

  method BuildMapping(names: string, settings: Settings) returns (lines: Lines)
    ensures lines == MappingBlock(names, settings)
  {
    lines := BuildStanza("mapping " + names, settings, MappingOptions);
  }

  /** `_build_<kind>`, chosen by the block kind. */
  function BlockFor(kind: BlockKind, name: string, s: Settings): Result<Lines> {
    match kind
    case Iface => IfaceBlock(name, s)
    case Mapping => Ok(MappingBlock(name, s))
  }

  method Build(kind: BlockKind, name: string, settings: Settings) returns (r: Result<Lines>)
    ensures r == BlockFor(kind, name, settings)
  {
    match kind
    case Iface =>
      r := BuildIface(name, settings);
    case Mapping =>
      var lines := BuildMapping(name, settings);
      r := Ok(lines);
  }

  // ---------------------------------------------------------------------------
  // What the builders promise

  /** `_build_iface` succeeds exactly for the `inet` family with a tuple method, and
      otherwise raises the error of the first lookup that fails. */
  lemma IfaceBlockOutcome(iface: string, s: Settings)
    ensures IfaceBlock(iface, s).Ok? <==>
      Get(s, "family") == Some(Scalar("inet")) && Get(s, "method").Some? &&
      Get(s, "method").value.Scalar? && Get(s, "method").value.s in TupleMethods
    ensures Get(s, "family").None? ==> IfaceBlock(iface, s) == Err(MissingKey("family"))
    ensures Get(s, "family").Some? && Get(s, "method").None? ==> IfaceBlock(iface, s) == Err(MissingKey("method"))
    ensures (Get(s, "family") == Some(Scalar("inet")) && Get(s, "method").Some? && Get(s, "method").value.Scalar? &&
             Get(s, "method").value.s in {"ppp", "wvdial"})
      ==> IfaceBlock(iface, s) == Err(NotConcatenable(Get(s, "method").value.s))
  {
    GetRemove(s, "family", "method");
    if Get(s, "family").Some? && Get(s, "method").Some? {
      IfaceOptionsOk(AsKey(Get(s, "family").value), AsKey(Get(s, "method").value));
      IfaceOptionsErrors(AsKey(Get(s, "family").value), AsKey(Get(s, "method").value));
    }
  }

  /** No option name occurs twice. */
  predicate Distinct(opts: seq<string>) {
    forall i, j :: 0 <= i < j < |opts| ==> opts[i] != opts[j]
  }

  /** The lines of one setting, none when it is absent. */
  function KeyLinesOf(s: Settings, k: string): seq<string> {
    match Get(s, k)
    case None => []
    case Some(v) => KeyLines(k, Items(v))
  }

  /** Each ordering key's lines, in ordering order. */
  function Flat(s: Settings, opts: seq<string>): seq<string>
    decreases |opts|
  {
    if opts == [] then [] else Flat(s, opts[..|opts| - 1]) + KeyLinesOf(s, opts[|opts| - 1])
  }

  /** With an ordering that names no option twice, the ordered part is simply every
      ordering key's lines in turn. */
  lemma {:induction false} ChosenFlat(s: Settings, opts: seq<string>)
    requires Distinct(opts)
    ensures Chosen(s, opts) == Flat(s, opts)
    decreases |opts|
  {
    if opts != [] {
      var init := opts[..|opts| - 1];
      var k := opts[|opts| - 1];
      assert Distinct(init);
      ChosenFlat(s, init);
      assert k !in init;
      assert init + [k] == opts;
    }
  }

  /** With an `inet` family and a tuple method, `_build_iface` builds the block from the
      settings left once both are popped, ordered by that method's options. */
  lemma IfaceBlockInet(iface: string, s: Settings, m: string)
    requires Get(s, "family") == Some(Scalar("inet")) && Get(s, "method") == Some(Scalar(m)) && m in TupleMethods
    ensures IfaceOptions(Text("inet"), Text(m)).Ok?
    ensures IfaceBlock(iface, s) == Ok(StanzaOf(IfaceHeader(iface, "inet", m), Remove(Remove(s, "family"), "method"),
                                                IfaceOptions(Text("inet"), Text(m)).value))
  {
    IfaceOptionsOk(Text("inet"), Text(m));
    GetRemove(s, "family", "method");
    assert AsKey(Scalar("inet")) == Text("inet") && AsKey(Scalar(m)) == Text(m);
  }

  /** A built `iface` block: the header names the interface, the family and the
      method; the other lines are exactly those of the settings left once `family` and
      `method` are popped, rearranged. */
  lemma IfaceBlockLines(iface: string, s: Settings, m: string)
    requires Unique(s)
    requires Get(s, "family") == Some(Scalar("inet")) && Get(s, "method") == Some(Scalar(m)) && m in TupleMethods
    ensures IfaceBlock(iface, s).Ok?
    ensures var lines := IfaceBlock(iface, s).value;
      var rest := Remove(Remove(s, "family"), "method");
      && lines[0] == IfaceHeader(iface, "inet", m)
      && "family" !in Keys(rest) && "method" !in Keys(rest)
      && multiset(lines[1..]) == multiset(AllLines(rest))
  {
    IfaceBlockInet(iface, s, m);
    var s1 := Remove(s, "family");
    var rest := Remove(s1, "method");
    RemoveKeeps(s1, "method", "family");
    RemoveUnique(s, "family");
    RemoveUnique(s1, "method");
    StanzaPermutation(IfaceHeader(iface, "inet", m), rest, IfaceOptions(Text("inet"), Text(m)).value);
  }

  /** The order of a built `iface` block: the method's own options, then the global
      hooks, then every other setting in settings order. */
  lemma IfaceBlockOrder(iface: string, s: Settings, m: string)
    requires Get(s, "family") == Some(Scalar("inet")) && Get(s, "method") == Some(Scalar(m)) && m in TupleMethods
    ensures IfaceBlock(iface, s).Ok? && IfaceOptions(Text("inet"), Text(m)).Ok?
    ensures var lines := IfaceBlock(iface, s).value;
      var rest := Remove(Remove(s, "family"), "method");
      var opts := IfaceOptions(Text("inet"), Text(m)).value;
      lines == [IfaceHeader(iface, "inet", m)] + Chosen(rest, opts) + AllLines(Others(rest, opts))
  {
    IfaceBlockInet(iface, s, m);
    StanzaLayout(IfaceHeader(iface, "inet", m), Remove(Remove(s, "family"), "method"), IfaceOptions(Text("inet"), Text(m)).value);
  }

  /** The ordered part for an ordering of two distinct keys. */
  lemma TwoKeyFlat(s: Settings, opts: seq<string>)
    requires |opts| == 2 && opts[0] != opts[1]
    ensures Chosen(s, opts) == KeyLinesOf(s, opts[0]) + KeyLinesOf(s, opts[1])
  {
    assert Distinct(opts);
    ChosenFlat(s, opts);
    FlatPair(s, opts);
  }

  lemma FlatPair(s: Settings, opts: seq<string>)
    requires |opts| == 2
    ensures Flat(s, opts) == KeyLinesOf(s, opts[0]) + KeyLinesOf(s, opts[1])
  {
    var head := opts[..1];
    var k0, k1 := KeyLinesOf(s, opts[0]), KeyLinesOf(s, opts[1]);
    assert head[..0] == [] && head[0] == opts[0] && opts[..|opts| - 1] == head;
    assert Flat(s, head) == [] + k0;
    assert [] + k0 == k0;
    assert Flat(s, opts) == Flat(s, head) + k1;
  }

  /** A block ordered by two distinct keys. */
  lemma TwoKeyLayout(h: string, s: Settings, opts: seq<string>)
    requires |opts| == 2 && opts[0] != opts[1]
    ensures StanzaOf(h, s, opts) == [h] + KeyLinesOf(s, opts[0]) + KeyLinesOf(s, opts[1]) + AllLines(Others(s, opts))
  {
    StanzaLayout(h, s, opts);
    TwoKeyFlat(s, opts);
    ConcatAssoc([h] + KeyLinesOf(s, opts[0]), KeyLinesOf(s, opts[1]), AllLines(Others(s, opts)));
    ConcatAssoc([h], KeyLinesOf(s, opts[0]), KeyLinesOf(s, opts[1]));
  }

  /** A built `mapping` block: the header names the mapped interfaces; `script` lines
      come first, then `map` lines, then every other setting's lines, and together
      they are exactly the settings' lines. */
  lemma MappingBlockLines(names: string, s: Settings)
    requires Unique(s)
    ensures var lines := MappingBlock(names, s);
      && lines[0] == "mapping " + names
      && multiset(lines[1..]) == multiset(AllLines(s))
      && lines == [lines[0]] + KeyLinesOf(s, "script") + KeyLinesOf(s, "map") + AllLines(Others(s, MappingOptions))
  {
    StanzaPermutation("mapping " + names, s, MappingOptions);
    TwoKeyLayout("mapping " + names, s, MappingOptions);
  }

  /** A string setting gives one line. */
  lemma KeyLinesOfScalar(s: Settings, k: string, x: string)
    requires Get(s, k) == Some(Scalar(x))
    ensures KeyLinesOf(s, k) == [OptionLine(k, x)]
  {
    assert Items(Scalar(x)) == [x];
    assert KeyLines(k, [x][1..]) == [];
  }

  /** A two-item list setting gives two lines. */
  lemma KeyLinesOfPair(s: Settings, k: string, x: string, y: string)
    requires Get(s, k) == Some(Multi([x, y]))
    ensures KeyLinesOf(s, k) == [OptionLine(k, x), OptionLine(k, y)]
  {
    assert Items(Multi([x, y])) == [x, y];
    assert [x, y][1..] == [y] && [y][1..] == [];
    assert KeyLines(k, [y]) == [OptionLine(k, y)] + KeyLines(k, []);
  }

  /** When every setting is an ordering key, no other setting is left. */
  lemma {:induction false} OthersAllIn(s: Settings, opts: seq<string>)
    requires forall i :: 0 <= i < |s| ==> s[i].0 in opts
    ensures Others(s, opts) == []
    decreases |s|
  {
    if s != [] {
      OthersAllIn(s[1..], opts);
    }
  }

  /** The block `test_build_mapping` expects, for any script and map values: `script`
      first, then one `map` line per list item. */
  lemma MappingExample(names: string, x: string, y: string, z: string)
    ensures MappingBlock(names, [("script", Scalar(x)), ("map", Multi([y, z]))])
         == ["mapping " + names, OptionLine("script", x), OptionLine("map", y), OptionLine("map", z)]
  {
    var s := [("script", Scalar(x)), ("map", Multi([y, z]))];
    TwoKeyLayout("mapping " + names, s, MappingOptions);
    KeyLinesOfScalar(s, "script", x);
    KeyLinesOfPair(s, "map", y, z);
    OthersAllIn(s, MappingOptions);
  }
}
