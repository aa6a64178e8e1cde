/** The in-memory form of an interfaces file. */
module Documents {
  import opened Outcomes
  import opened Assoc

  /** A rendered block: the header line first, then its indented option lines. */
  type Lines = seq<string>

  /** The blocks of one stanza kind, keyed by block name, in insertion order. */
  type Blocks = Table<Lines>

  /** A parsed file. The flat `auto` list always comes first; every other stanza kind
      (`iface`, `mapping`, `allow-*`, ...) follows in the order it was first seen. */
  datatype Document = Document(auto: seq<string>, stanzas: Table<Blocks>)

  /** What parsing a missing file gives: an empty `auto` list and nothing else. */
  const Empty: Document := Document([], [])

  /** The two kinds of block the manager can build. */
  datatype BlockKind = Iface | Mapping {
    function Name(): (n: string)
      ensures n in {"iface", "mapping"}
    {
      match this
      case Iface => "iface"
      case Mapping => "mapping"
    }
  }

  /** The kind's table of blocks, empty when the kind is absent. */
  function TableOf(stanzas: Table<Blocks>, kind: string): Blocks {
    Get(stanzas, kind).GetOr([])
  }

  /** `doc[kind][key]`, if there is such a block. */
  function BlockOf(stanzas: Table<Blocks>, kind: string, key: string): Option<Lines> {
    Get(TableOf(stanzas, kind), key)
  }

  /** `doc[kind][key] = lines`, creating the kind's table at the end when it is new. */
  function PutBlock(stanzas: Table<Blocks>, kind: string, key: string, lines: Lines): Table<Blocks> {
    Put(stanzas, kind, Put(TableOf(stanzas, kind), key, lines))
  }

  /** Assigning one block leaves every other block as it was. */
  lemma BlockOfPutBlock(stanzas: Table<Blocks>, kind: string, key: string, lines: Lines, kind': string, key': string)
    ensures BlockOf(PutBlock(stanzas, kind, key, lines), kind', key') ==
            if kind' == kind && key' == key then Some(lines) else BlockOf(stanzas, kind', key')
  {
    GetPut(stanzas, kind, Put(TableOf(stanzas, kind), key, lines), kind');
    GetPut(TableOf(stanzas, kind), key, lines, key');
  }

  /** Assigning a block the lines it already has changes nothing. */
  lemma PutBlockSame(stanzas: Table<Blocks>, kind: string, key: string, lines: Lines)
    requires BlockOf(stanzas, kind, key) == Some(lines)
    ensures PutBlock(stanzas, kind, key, lines) == stanzas
  {
    PutSame(TableOf(stanzas, kind), key, lines);
    assert Get(stanzas, kind).Some?;
    PutSame(stanzas, kind, TableOf(stanzas, kind));
  }

  lemma TableOfPutBlock(stanzas: Table<Blocks>, kind: string, key: string, lines: Lines)
    ensures TableOf(PutBlock(stanzas, kind, key, lines), kind) == Put(TableOf(stanzas, kind), key, lines)
  {
    GetPut(stanzas, kind, Put(TableOf(stanzas, kind), key, lines), kind);
  }

  /** A second assignment to the same block wins, in the same place. */
  lemma PutBlockTwice(stanzas: Table<Blocks>, kind: string, key: string, a: Lines, b: Lines)
    ensures PutBlock(PutBlock(stanzas, kind, key, a), kind, key, b) == PutBlock(stanzas, kind, key, b)
  {
    var t := TableOf(stanzas, kind);
    TableOfPutBlock(stanzas, kind, key, a);
    PutPut(t, key, a, b);
    PutPut(stanzas, kind, Put(t, key, a), Put(t, key, b));
  }

  /** Creating an empty table for a new kind first, as the parser does, changes nothing
      once a block is assigned in it. */
  lemma PutBlockAfterNewKind(stanzas: Table<Blocks>, kind: string, key: string, lines: Lines)
    requires kind !in Keys(stanzas)
    ensures PutBlock(stanzas + [(kind, [])], kind, key, lines) == PutBlock(stanzas, kind, key, lines)
  {
    GetAppended(stanzas, kind, [], kind);
    PutAppended(stanzas, kind, [], Put([], key, lines));
  }
}
