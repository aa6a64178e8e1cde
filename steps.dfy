/** The module's global state (the parse cache `_interfaces` and the snapshot map
    `_previous`) together with the file system it reads and writes, and what each
    public operation does to them. */
module Steps {
  import opened Outcomes
  import opened Assoc
  import opened Documents
  import opened Parser
  import opened Stanza
  import opened Serializer
  import opened Reconciler

  /** A file: the user id that owns it and its text. */
  datatype FileEntry = FileEntry(owner: int, contents: string)

  type Files = map<string, FileEntry>

  /** What `cmd.run_all` reports for a shell command. */
  datatype CommandResult = CommandResult(retcode: int, stdout: string, stderr: string)

  /** `_interfaces` (path to parsed document), `_previous` (interface name to snapshot
      path) and the files. */
  datatype Store = Store(cache: map<string, Document>, previous: map<string, string>, files: Files)

  /** Every recorded snapshot exists, and no two interfaces share one: what the
      snapshot code keeps true as long as `mkstemp` hands out fresh paths. */
  predicate StoreOk(st: Store) {
    SnapshotsOk(st.previous, st.files)
  }

  predicate SnapshotsOk(previous: map<string, string>, files: Files) {
    && (forall n :: n in previous ==> previous[n] in files)
    && (forall n, m :: n in previous && m in previous && n != m ==> previous[n] != previous[m])
  }

  // ---------------------------------------------------------------------------
  // Parsing with the cache

  /** What `_parse_interfaces(path)` returns: the cached document if there is one, the
      bare `{auto: []}` for a missing file, and otherwise the parse of the file. */
  function Lookup(st: Store, path: string): Result<Document> {
    if path in st.cache then Ok(st.cache[path])
    else if path !in st.files then Ok(Empty)
    else Parse(st.files[path].contents)
  }

  /** The state after `_parse_interfaces(path)`: only a successful parse of an existing
      file is cached; the missing-file result and a failed parse are not. */
  function AfterLookup(st: Store, path: string): Store {
    if path !in st.cache && path in st.files && Lookup(st, path).Ok?
    then st.(cache := st.cache[path := Lookup(st, path).value])
    else st
  }

  /** The three cases of `_parse_interfaces(path)`, one by one. */
  lemma LookupCases(st: Store, path: string)
    ensures path in st.cache ==> Lookup(st, path) == Ok(st.cache[path]) && AfterLookup(st, path) == st
    ensures path !in st.cache && path !in st.files ==> Lookup(st, path) == Ok(Empty) && AfterLookup(st, path) == st
    ensures path !in st.cache && path in st.files ==>
      var r := Parse(st.files[path].contents);
      Lookup(st, path) == r && AfterLookup(st, path).cache == if r.Ok? then st.cache[path := r.value] else st.cache
  {
    if path !in st.cache && path in st.files {
      var r := Parse(st.files[path].contents);
      assert Lookup(st, path) == r;
      if r.Ok? {
        assert AfterLookup(st, path) == st.(cache := st.cache[path := r.value]);
      } else {
        assert AfterLookup(st, path) == st;
      }
    }
  }

  /** The cache only memoises: parsing again gives the same answer and changes nothing
      more, and only the cache changes. */
  lemma LookupMemo(st: Store, path: string)
    ensures Lookup(AfterLookup(st, path), path) == Lookup(st, path)
    ensures AfterLookup(AfterLookup(st, path), path) == AfterLookup(st, path)
    ensures AfterLookup(st, path).previous == st.previous && AfterLookup(st, path).files == st.files
  {
  }

  /** A path that is neither cached nor on disk parses to exactly `{auto: []}`, and nothing
      is cached; a parse error is not cached either. */
  lemma LookupUncached(st: Store, path: string)
    ensures path !in st.cache && path !in st.files ==> Lookup(st, path) == Ok(Empty) && AfterLookup(st, path) == st
    ensures Lookup(st, path).Err? ==> AfterLookup(st, path) == st && path !in st.cache
  {
  }

  /** Once a path is cached, the file itself is no longer read: whatever happens to it,
      parsing returns the cached document until the cache is cleared. */
  lemma CacheHides(st: Store, path: string, f: Files)
    requires path in st.cache
    ensures Lookup(st.(files := f), path) == Ok(st.cache[path])
  {
  }

  /** `get_interface`: the `iface` table must exist (a `KeyError` otherwise); an absent
      name gives the empty answer. */
  function InterfaceOf(d: Document, name: string): Result<Option<Lines>> {
    if "iface" !in Keys(d.stanzas) then Err(MissingKey("iface")) else Ok(BlockOf(d.stanzas, "iface", name))
  }

  /** The file a missing path parses to has no `iface` table, so `get_interface` fails on it. */
  lemma InterfaceOfEmpty(name: string)
    ensures InterfaceOf(Empty, name) == Err(MissingKey("iface"))
  {
  }

  // ---------------------------------------------------------------------------
  // build_interface

  /** `settings.pop('config', config)`: a list value cannot be used as a cache key. */
  function ConfigPath(settings: Settings, config: string): Result<string> {
    match Get(settings, "config")
    case None => Ok(config)
    case Some(v) => if v.Scalar? then Ok(v.s) else Err(Unhashable("config"))
  }

  /** The document is shared with the cache, so updating it updates the cached entry,
      when there is one. */
  function Aliased(cache: map<string, Document>, path: string, d: Document): map<string, Document> {
    if path in cache then cache[path := d] else cache
  }

  /** `mkstemp` and `copyfile`: a copy of the current file under the fresh path `temp`,
      recorded for the interface; nothing when the file does not exist. */
  function Snapshot(st: Store, uid: int, name: string, path: string, temp: string): Store {
    if path in st.files
    then st.(files := st.files[temp := FileEntry(uid, st.files[path].contents)], previous := st.previous[name := temp])
    else st
  }

  /** `_write_file`: the file's text is replaced; a new file belongs to the process. */
  function Write(files: Files, path: string, text: string, uid: int): Files {
    files[path := FileEntry(if path in files then files[path].owner else uid, text)]
  }

  /** The state after `build_interface` and its answer. */
  datatype Built = Built(store: Store, result: Result<Lines>)

  /** `build_interface(name, kind, enabled, settings, config)`, with `temp` the path
      `mkstemp` would return. */
  function BuildStep(st: Store, uid: int, name: string, kind: BlockKind, enabled: bool, settings: Settings,
                     config: string, temp: string): Built {
    match ConfigPath(settings, config)
    case Err(e) => Built(st, Err(e))
    case Ok(path) =>
      match Lookup(st, path)
      case Err(e) => Built(AfterLookup(st, path), Err(e))
      case Ok(doc) =>
        Apply(AfterLookup(st, path), uid, path, doc, name, kind, enabled, Prepared(settings), Truthy(Get(settings, "test")), temp)
  }

  /** Everything after the parse, given the prepared settings `s` and the test flag:
      reconcile the cached document, and unless testing or nothing changed, snapshot
      the file and rewrite it. */
  function Apply(st: Store, uid: int, path: string, doc: Document, name: string, kind: BlockKind, enabled: bool,
                 s: Settings, testing: bool, temp: string): Built {
    match Reconcile(doc, kind, name, enabled, s)
    case Err(e) => Built(st.(cache := Aliased(st.cache, path, doc.(auto := UpdateAuto(doc.auto, kind, name, enabled)))), Err(e))
    case Ok(o) => Settle(st, uid, path, name, o, testing, temp)
  }

  /** A successful reconciliation: the reconciled document is what the cache now holds,
      and the file is committed unless testing or nothing changed. */
  function Settle(st: Store, uid: int, path: string, name: string, o: Outcome, testing: bool, temp: string): Built {
    var st' := st.(cache := Aliased(st.cache, path, o.doc));
    if testing || !o.sync then Built(st', Ok(o.lines)) else Built(Commit(st', uid, name, path, Render(o.doc), temp), Ok(o.lines))
  }

  /** The snapshot, then the write. */
  function Commit(st: Store, uid: int, name: string, path: string, text: string, temp: string): Store {
    var snap := Snapshot(st, uid, name, path, temp);
    snap.(files := Write(snap.files, path, text, uid))
  }

  /** The commit copies the old text to the fresh `temp` and records it (when the file
      existed), then leaves the new text in the file; the cache is untouched. */
  lemma CommitEffect(st: Store, uid: int, name: string, path: string, text: string, temp: string)
    requires temp !in st.files
    ensures var c := Commit(st, uid, name, path, text, temp);
      && c.cache == st.cache
      && c.previous == (if path in st.files then st.previous[name := temp] else st.previous)
      && (path in st.files ==> c.files[temp] == FileEntry(uid, st.files[path].contents))
      && path in c.files && c.files[path].contents == text
      && c.files.Keys >= st.files.Keys
  {
  }

  /** What the post-parse step may change: in test mode, or when nothing changed, only
      the cache; otherwise it commits the reconciled document. */
  lemma ApplyEffect(st: Store, uid: int, path: string, doc: Document, name: string, kind: BlockKind, enabled: bool,
                    s: Settings, testing: bool, temp: string)
    ensures var b := Apply(st, uid, path, doc, name, kind, enabled, s, testing, temp);
      && b.result == (match Reconcile(doc, kind, name, enabled, s) case Err(e) => Err(e) case Ok(o) => Ok(o.lines))
      && if Reconcile(doc, kind, name, enabled, s).Ok? && Reconcile(doc, kind, name, enabled, s).value.sync && !testing
         then b.store == Commit(st.(cache := Aliased(st.cache, path, Reconcile(doc, kind, name, enabled, s).value.doc)),
                                uid, name, path, Render(Reconcile(doc, kind, name, enabled, s).value.doc), temp)
         else b.store.files == st.files && b.store.previous == st.previous
  {
  }

  /** The lookup leaves the snapshot records and the files alone. */
  lemma BuildSplit(st: Store, uid: int, name: string, kind: BlockKind, enabled: bool, settings: Settings,
                   config: string, temp: string)
    ensures var b := BuildStep(st, uid, name, kind, enabled, settings, config, temp);
      && (ConfigPath(settings, config).Err? ==> b == Built(st, Err(ConfigPath(settings, config).error)))
      && (ConfigPath(settings, config).Ok? ==>
          var path := ConfigPath(settings, config).value;
          && AfterLookup(st, path).files == st.files && AfterLookup(st, path).previous == st.previous
          && (Lookup(st, path).Err? ==> b == Built(AfterLookup(st, path), Err(Lookup(st, path).error)))
          && (Lookup(st, path).Ok? ==>
              b == Apply(AfterLookup(st, path), uid, path, Lookup(st, path).value, name, kind, enabled,
                         Prepared(settings), Truthy(Get(settings, "test")), temp)))
  {
    var b := BuildStep(st, uid, name, kind, enabled, settings, config, temp);
    match ConfigPath(settings, config)
    case Err(e) =>
      assert b == Built(st, Err(e));
    case Ok(path) =>
      LookupMemo(st, path);
      match Lookup(st, path)
      case Err(e) =>
        assert b == Built(AfterLookup(st, path), Err(e));
      case Ok(doc) =>
        assert b == Apply(AfterLookup(st, path), uid, path, doc, name, kind, enabled,
                          Prepared(settings), Truthy(Get(settings, "test")), temp);
  }

  /** In test mode nothing is snapshotted or written; only the cached document changes. */
  lemma BuildTestMode(st: Store, uid: int, name: string, kind: BlockKind, enabled: bool, settings: Settings,
                      config: string, temp: string)
    requires Truthy(Get(settings, "test"))
    ensures var b := BuildStep(st, uid, name, kind, enabled, settings, config, temp);
      b.store.files == st.files && b.store.previous == st.previous
  {
    BuildSplit(st, uid, name, kind, enabled, settings, config, temp);
    if ConfigPath(settings, config).Ok? {
      var path := ConfigPath(settings, config).value;
      if Lookup(st, path).Ok? {
        ApplyEffect(AfterLookup(st, path), uid, path, Lookup(st, path).value, name, kind, enabled, Prepared(settings), true, temp);
      }
    }
  }

  /** The file is touched only by a successful, non-test build whose document changed:
      the old text is first copied to `temp` and recorded (when the file existed), then
      the new document is written, and it parses back to that document when it is
      well formed. */
  lemma BuildWrites(st: Store, uid: int, name: string, kind: BlockKind, enabled: bool, settings: Settings,
                    config: string, temp: string)
    requires temp !in st.files
    requires var b := BuildStep(st, uid, name, kind, enabled, settings, config, temp);
      b.store.files != st.files || b.store.previous != st.previous
    ensures ConfigPath(settings, config).Ok?
    ensures Lookup(st, ConfigPath(settings, config).value).Ok?
    ensures Reconcile(Lookup(st, ConfigPath(settings, config).value).value, kind, name, enabled, Prepared(settings)).Ok?
    ensures var path := ConfigPath(settings, config).value;
      var o := Reconcile(Lookup(st, path).value, kind, name, enabled, Prepared(settings)).value;
      var b := BuildStep(st, uid, name, kind, enabled, settings, config, temp);
      && o.sync && !Truthy(Get(settings, "test"))
      && b.result == Ok(o.lines)
      && b.store.previous == (if path in st.files then st.previous[name := temp] else st.previous)
      && (path in st.files ==> b.store.files[temp] == FileEntry(uid, st.files[path].contents))
      && b.store.files[path].contents == Render(o.doc)
      && (WellFormed(o.doc) ==> Parse(b.store.files[path].contents) == Ok(o.doc))
  {
    BuildSplit(st, uid, name, kind, enabled, settings, config, temp);
    var path := ConfigPath(settings, config).value;
    var doc := Lookup(st, path).value;
    var st1 := AfterLookup(st, path);
    ApplyEffect(st1, uid, path, doc, name, kind, enabled, Prepared(settings), Truthy(Get(settings, "test")), temp);
    var o := Reconcile(doc, kind, name, enabled, Prepared(settings)).value;
    CommitEffect(st1.(cache := Aliased(st1.cache, path, o.doc)), uid, name, path, Render(o.doc), temp);
    if WellFormed(o.doc) {
      RoundTrip(o.doc);
    }
  }

  /** The post-parse step on a cached path leaves the reconciled document in the cache. */
  lemma ApplyCaches(st: Store, uid: int, path: string, doc: Document, name: string, kind: BlockKind, enabled: bool,
                    s: Settings, testing: bool, temp: string)
    requires path in st.cache
    requires Reconcile(doc, kind, name, enabled, s).Ok?
    ensures var b := Apply(st, uid, path, doc, name, kind, enabled, s, testing, temp);
      b.store.cache == st.cache[path := Reconcile(doc, kind, name, enabled, s).value.doc]
      && b.result == Ok(Reconcile(doc, kind, name, enabled, s).value.lines)
  {
    var o := Reconcile(doc, kind, name, enabled, s).value;
    var st' := st.(cache := st.cache[path := o.doc]);
    if o.sync && !testing {
      assert Commit(st', uid, name, path, Render(o.doc), temp).cache == st'.cache;
    }
  }

  /** When the cached document already reconciles to itself, the post-parse step
      changes nothing. */
  lemma ApplySettled(st: Store, uid: int, path: string, doc: Document, name: string, kind: BlockKind, enabled: bool,
                     s: Settings, testing: bool, temp: string, lines: Lines)
    requires path in st.cache && st.cache[path] == doc
    requires Reconcile(doc, kind, name, enabled, s) == Ok(Outcome(doc, lines, false))
    ensures Apply(st, uid, path, doc, name, kind, enabled, s, testing, temp) == Built(st, Ok(lines))
  {
    assert Aliased(st.cache, path, doc) == st.cache;
    assert st.(cache := st.cache) == st;
  }

  /** An identical second `build_interface` on a file that exists (or is cached) finds
      its own result in the cache: `sync` is false, so nothing is written and no new
      snapshot is taken, and the same lines come back. This needs a disabled name to
      have been listed at most once in `auto`. `BuildRepeatFresh` covers a path that
      is neither cached nor on disk. */
  lemma BuildRepeat(st: Store, uid: int, name: string, kind: BlockKind, enabled: bool, settings: Settings,
                    config: string, temp: string, temp': string)
    requires BuildStep(st, uid, name, kind, enabled, settings, config, temp).result.Ok?
    requires ConfigPath(settings, config).Ok?
    requires var path := ConfigPath(settings, config).value; path in st.cache || path in st.files
    requires Lookup(st, ConfigPath(settings, config).value).Ok?
    requires enabled || multiset(Lookup(st, ConfigPath(settings, config).value).value.auto)[name] <= 1
    ensures var b := BuildStep(st, uid, name, kind, enabled, settings, config, temp);
      BuildStep(b.store, uid, name, kind, enabled, settings, config, temp') == b
  {
    var path := ConfigPath(settings, config).value;
    var doc := Lookup(st, path).value;
    var st1 := AfterLookup(st, path);
    var s, testing := Prepared(settings), Truthy(Get(settings, "test"));
    BuildSplit(st, uid, name, kind, enabled, settings, config, temp);
    var b := Apply(st1, uid, path, doc, name, kind, enabled, s, testing, temp);
    assert path in st1.cache;
    ApplyCaches(st1, uid, path, doc, name, kind, enabled, s, testing, temp);
    var o := Reconcile(doc, kind, name, enabled, s).value;
    ReconcileSettles(doc, kind, name, enabled, s);
    ApplySettled(b.store, uid, path, o.doc, name, kind, enabled, s, testing, temp', o.lines);
    BuildSplit(b.store, uid, name, kind, enabled, settings, config, temp');
  }

  /** A build on a path that is neither cached nor on disk starts from `{auto: []}`. Its
      result is not cached (the missing-file branch returns before the cache is
      written). Unless testing or nothing changed, the file is created with the
      rendered document and no snapshot is taken. Any `temp` gives the same result. */
  lemma BuildFresh(st: Store, uid: int, name: string, kind: BlockKind, enabled: bool, settings: Settings,
                   config: string, temp: string)
    requires ConfigPath(settings, config).Ok?
    requires var path := ConfigPath(settings, config).value; path !in st.cache && path !in st.files
    requires Reconcile(Empty, kind, name, enabled, Prepared(settings)).Ok?
    ensures var path := ConfigPath(settings, config).value;
      var o := Reconcile(Empty, kind, name, enabled, Prepared(settings)).value;
      BuildStep(st, uid, name, kind, enabled, settings, config, temp) ==
        Built(if Truthy(Get(settings, "test")) || !o.sync then st else st.(files := Write(st.files, path, Render(o.doc), uid)),
              Ok(o.lines))
  {
    var path := ConfigPath(settings, config).value;
    var s, testing := Prepared(settings), Truthy(Get(settings, "test"));
    var o := Reconcile(Empty, kind, name, enabled, s).value;
    BuildSplit(st, uid, name, kind, enabled, settings, config, temp);
    LookupCases(st, path);
    assert Aliased(st.cache, path, o.doc) == st.cache;
    assert st.(cache := st.cache) == st;
    assert Snapshot(st, uid, name, path, temp) == st;
  }

  /** The second of two identical builds on a path that was missing: the first created
      the file without caching it, so the second parses that file. When the built
      document is well formed, the file parses back to it and it reconciles to itself.
      So the second build returns the same lines, writes nothing and takes no snapshot;
      only the cache gains the path. In test mode nothing was written, and the second
      build repeats the first exactly. */
  lemma BuildRepeatFresh(st: Store, uid: int, name: string, kind: BlockKind, enabled: bool, settings: Settings,
                         config: string, temp: string, temp': string)
    requires ConfigPath(settings, config).Ok?
    requires var path := ConfigPath(settings, config).value; path !in st.cache && path !in st.files
    requires Reconcile(Empty, kind, name, enabled, Prepared(settings)).Ok?
    requires WellFormed(Reconcile(Empty, kind, name, enabled, Prepared(settings)).value.doc)
    ensures var path := ConfigPath(settings, config).value;
      var o := Reconcile(Empty, kind, name, enabled, Prepared(settings)).value;
      var b := BuildStep(st, uid, name, kind, enabled, settings, config, temp);
      var b2 := BuildStep(b.store, uid, name, kind, enabled, settings, config, temp');
      && b2.result == b.result && b2.store.files == b.store.files && b2.store.previous == b.store.previous
      && b2.store.cache == if Truthy(Get(settings, "test")) || !o.sync then b.store.cache else b.store.cache[path := o.doc]
  {
    var path := ConfigPath(settings, config).value;
    var s, testing := Prepared(settings), Truthy(Get(settings, "test"));
    var o := Reconcile(Empty, kind, name, enabled, s).value;
    BuildFresh(st, uid, name, kind, enabled, settings, config, temp);
    if testing || !o.sync {
      BuildFresh(st, uid, name, kind, enabled, settings, config, temp');
    } else {
      var st2 := st.(files := Write(st.files, path, Render(o.doc), uid));
      RewrittenRepeat(st2, uid, name, kind, enabled, settings, config, temp', o);
    }
  }

  /** The second build of `BuildRepeatFresh`, once the file holds the rendered document. */
  lemma RewrittenRepeat(st: Store, uid: int, name: string, kind: BlockKind, enabled: bool, settings: Settings,
                        config: string, temp: string, o: Outcome)
    requires ConfigPath(settings, config).Ok?
    requires var path := ConfigPath(settings, config).value;
      path !in st.cache && path in st.files && st.files[path].contents == Render(o.doc)
    requires Reconcile(Empty, kind, name, enabled, Prepared(settings)) == Ok(o) && WellFormed(o.doc)
    ensures var path := ConfigPath(settings, config).value;
      BuildStep(st, uid, name, kind, enabled, settings, config, temp) ==
        Built(st.(cache := st.cache[path := o.doc]), Ok(o.lines))
  {
    var path := ConfigPath(settings, config).value;
    var s, testing := Prepared(settings), Truthy(Get(settings, "test"));
    RoundTrip(o.doc);
    LookupCases(st, path);
    var st3 := AfterLookup(st, path);
    assert st3 == st.(cache := st.cache[path := o.doc]);
    BuildSplit(st, uid, name, kind, enabled, settings, config, temp);
    ReconcileSettles(Empty, kind, name, enabled, s);
    ApplySettled(st3, uid, path, o.doc, name, kind, enabled, s, testing, temp, o.lines);
  }

  /** The commit keeps the snapshot records sound, given a fresh `temp`. */
  lemma CommitKeepsStore(st: Store, uid: int, name: string, path: string, text: string, temp: string)
    requires StoreOk(st) && temp !in st.files
    ensures StoreOk(Commit(st, uid, name, path, text, temp))
  {
    CommitEffect(st, uid, name, path, text, temp);
    assert forall n :: n in st.previous ==> st.previous[n] != temp;
  }

  /** A build keeps the snapshot records sound, given a fresh `temp`. */
  lemma BuildKeepsStore(st: Store, uid: int, name: string, kind: BlockKind, enabled: bool, settings: Settings,
                        config: string, temp: string)
    requires StoreOk(st) && temp !in st.files
    ensures StoreOk(BuildStep(st, uid, name, kind, enabled, settings, config, temp).store)
  {
    BuildSplit(st, uid, name, kind, enabled, settings, config, temp);
    if ConfigPath(settings, config).Ok? {
      var path := ConfigPath(settings, config).value;
      var st1 := AfterLookup(st, path);
      if Lookup(st, path).Ok? {
        var doc := Lookup(st, path).value;
        var s, testing := Prepared(settings), Truthy(Get(settings, "test"));
        ApplyEffect(st1, uid, path, doc, name, kind, enabled, s, testing, temp);
        if Reconcile(doc, kind, name, enabled, s).Ok? {
          var o := Reconcile(doc, kind, name, enabled, s).value;
          CommitKeepsStore(st1.(cache := Aliased(st1.cache, path, o.doc)), uid, name, path, Render(o.doc), temp);
        }
      }
    }
  }

  // ---------------------------------------------------------------------------
  // Bringing interfaces up and down

  /** The state after an operation that issues shell commands, the commands in order,
      and its answer. */
  datatype Effect<T> = Effect(store: Store, commands: seq<string>, result: Result<T>)

  /** `'ifdown -i "{0}" {1}'.format(previous, iface)`. */
  function RollbackCommand(snapshot: string, name: string): string {
    "ifdown -i \"" + snapshot + "\" " + name
  }

  /** `_previous_down(iface)`: with a recorded snapshot owned by the process, take the
      interface down with it (a failure of that command is ignored), then delete the
      snapshot and its record. */
  function PreviousDownStep(st: Store, uid: int, name: string): Effect<bool> {
    if name !in st.previous then Effect(st, [], Ok(false))
    else
      var snap := st.previous[name];
      if snap !in st.files then Effect(st, [], Err(NoSuchFile(snap)))
      else if st.files[snap].owner != uid then Effect(st, [], Err(NotOwned(snap)))
      else Effect(st.(files := st.files - {snap}, previous := st.previous - {name}), [RollbackCommand(snap, name)], Ok(true))
  }

  /** Without a record nothing happens; a snapshot owned by someone else is refused and
      kept; otherwise the rollback command is issued and the snapshot is consumed. */
  lemma PreviousDownCases(st: Store, uid: int, name: string)
    ensures var d := PreviousDownStep(st, uid, name);
      && (name !in st.previous ==> d == Effect(st, [], Ok(false)))
      && (d.result.Err? ==> d.store == st && d.commands == [] && name in st.previous)
      && (d.result == Ok(true) <==> name in st.previous && st.previous[name] in st.files && st.files[st.previous[name]].owner == uid)
      && (d.result == Ok(true) ==>
          && d.commands == [RollbackCommand(st.previous[name], name)]
          && name !in d.store.previous && st.previous[name] !in d.store.files
          && d.store.cache == st.cache)
  {
  }

  /** With sound records a snapshot is never missing, and consuming one keeps the
      records sound. */
  lemma PreviousDownKeepsStore(st: Store, uid: int, name: string)
    requires StoreOk(st)
    ensures PreviousDownStep(st, uid, name).result.Err? ==> PreviousDownStep(st, uid, name).result.error.NotOwned?
    ensures StoreOk(PreviousDownStep(st, uid, name).store)
  {
  }

  /** `_cmd_exec`: a non-zero exit status raises with the status and the error output. */
  function CommandOutcome(c: CommandResult): Result<string> {
    if c.retcode != 0 then Err(CommandFailed(c.retcode, c.stderr)) else Ok(c.stdout)
  }

  /** `cmd += " -i {0}".format(opts['config'])` when a config is given. */
  function WithConfig(cmd: string, config: Option<string>): string {
    match config
    case None => cmd
    case Some(c) => cmd + " -i " + c
  }

  /** `up(iface, opts)`: the rollback first (its errors propagate), then `ifup`. */
  function UpStep(st: Store, uid: int, name: string, config: Option<string>, run: string -> CommandResult): Effect<string> {
    var d := PreviousDownStep(st, uid, name);
    if d.result.Err? then Effect(d.store, d.commands, Err(d.result.error))
    else
      var cmd := WithConfig("ifup " + name, config);
      Effect(d.store, d.commands + [cmd], CommandOutcome(run(cmd)))
  }

  /** `down(iface, opts)`: the rollback if there is a snapshot, otherwise `ifdown`,
      whose failure becomes a message rather than an error. */
  function DownStep(st: Store, uid: int, name: string, config: Option<string>, run: string -> CommandResult): Effect<string> {
    var d := PreviousDownStep(st, uid, name);
    if d.result.Err? then Effect(d.store, d.commands, Err(d.result.error))
    else if d.result.value then Effect(d.store, d.commands, Ok("Brought down " + name + " using previous"))
    else
      var cmd := WithConfig("ifdown " + name, config);
      Effect(d.store, d.commands + [cmd], Ok(if run(cmd).retcode == 0 then "Brought down " + name else "Failed to bring down " + name))
  }

  /** Without a snapshot, `up` issues exactly `ifup <name>` and `down` exactly
      `ifdown <name>`, reporting success or failure by message (`test_up`, `test_down`,
      `test_already_down`). */
  lemma UpDownPlain(st: Store, uid: int, name: string, run: string -> CommandResult)
    requires name !in st.previous
    ensures UpStep(st, uid, name, None, run) == Effect(st, ["ifup " + name], CommandOutcome(run("ifup " + name)))
    ensures var d := DownStep(st, uid, name, None, run);
      && d.store == st && d.commands == ["ifdown " + name]
      && d.result == Ok(if run("ifdown " + name).retcode == 0 then "Brought down " + name else "Failed to bring down " + name)
  {
    assert [] + ["ifup " + name] == ["ifup " + name];
  }

  /** After a build that took a snapshot, `up` first takes the interface down with the
      snapshot, then brings it up, and the snapshot is gone (`test_clean_up`). */
  lemma UpAfterBuild(st: Store, uid: int, name: string, kind: BlockKind, enabled: bool, settings: Settings,
                     config: string, temp: string, run: string -> CommandResult)
    requires temp !in st.files
    requires var b := BuildStep(st, uid, name, kind, enabled, settings, config, temp); b.store.previous != st.previous
    ensures var b := BuildStep(st, uid, name, kind, enabled, settings, config, temp);
      var u := UpStep(b.store, uid, name, None, run);
      && u.commands == [RollbackCommand(temp, name), "ifup " + name]
      && temp !in u.store.files && name !in u.store.previous
      && u.result == CommandOutcome(run("ifup " + name))
  {
    BuildWrites(st, uid, name, kind, enabled, settings, config, temp);
    var b := BuildStep(st, uid, name, kind, enabled, settings, config, temp);
    assert ConfigPath(settings, config).value in st.files;
    UpWithSnapshot(b.store, uid, name, temp, run);
  }

  /** `up` with a recorded snapshot of its own: the rollback, then `ifup`. */
  lemma UpWithSnapshot(st: Store, uid: int, name: string, temp: string, run: string -> CommandResult)
    requires name in st.previous && st.previous[name] == temp
    requires temp in st.files && st.files[temp].owner == uid
    ensures var u := UpStep(st, uid, name, None, run);
      && u.commands == [RollbackCommand(temp, name), "ifup " + name]
      && temp !in u.store.files && name !in u.store.previous
      && u.result == CommandOutcome(run("ifup " + name))
  {
    assert [RollbackCommand(temp, name)] + ["ifup " + name] == [RollbackCommand(temp, name), "ifup " + name];
  }

  /** `up` and `down` keep the snapshot records sound. */
  lemma UpDownKeepStore(st: Store, uid: int, name: string, config: Option<string>, run: string -> CommandResult)
    requires StoreOk(st)
    ensures StoreOk(UpStep(st, uid, name, config, run).store)
    ensures StoreOk(DownStep(st, uid, name, config, run).store)
  {
    PreviousDownKeepsStore(st, uid, name);
  }

  // ---------------------------------------------------------------------------
  // Cleaning up

  /** The loop of `_clean()`: each recorded snapshot is unlinked, in the map's
      iteration order. Deleting every snapshot leaves the other files as they were; a
      snapshot already gone stops the loop with the `OSError` of `os.unlink`, which
      cannot happen while the records are sound. */
  method DeleteSnapshots(previous: map<string, string>, files: Files) returns (remaining: Files, r: Result<()>)
    ensures r.Ok? ==> remaining == files - previous.Values
    ensures r.Err? ==> r.error.NoSuchFile? && r.error.path in previous.Values
    ensures remaining.Keys <= files.Keys && forall p :: p in remaining ==> remaining[p] == files[p]
    ensures files.Keys - remaining.Keys <= previous.Values
    ensures SnapshotsOk(previous, files) ==> r.Ok?
  {
    var todo := previous;
    remaining := files;
    ghost var removed: set<string> := {};
    while todo != map[]
      invariant forall x :: x in todo ==> x in previous && todo[x] == previous[x]
      invariant removed <= previous.Values && remaining == files - removed
      invariant forall x :: x in previous ==> x in todo || previous[x] in removed
      invariant SnapshotsOk(previous, files) ==> SnapshotsOk(todo, remaining)
      decreases |todo.Keys|
    {
      var x :| x in todo;
      var snap := todo[x];
      if snap !in remaining {
        return remaining, Err(NoSuchFile(snap));
      }
      var rest := todo - {x};
      remaining := remaining - {snap};
      removed := removed + {snap};
      todo := rest;
    }
    return remaining, Ok(());
  }
}
