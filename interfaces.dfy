/** The module's public operations on its global state: `_interfaces` (the parse
    cache), `_previous` (the snapshot records), the file system they act on, and the
    shell commands the module has issued. */
module Interfaces {
  import opened Outcomes
  import opened Assoc
  import opened Documents
  import opened Parser
  import opened Stanza
  import opened Serializer
  import opened Reconciler
  import opened Steps

  class Manager {
    var cache: map<string, Document>
    var previous: map<string, string>
    var files: Files
    /** Every command handed to `_cmd_exec`, in order. */
    var trace: seq<string>
    /** `os.getuid()`. */
    const uid: int

    function State(): Store
      reads this
    {
      Store(cache, previous, files)
    }

    /** The snapshot records are sound. */
    predicate Valid()
      reads this
    {
      StoreOk(State())
    }

    /** A fresh module import: empty cache, no snapshots. */
    constructor(files0: Files, uid0: int)
      ensures State() == Store(map[], map[], files0) && trace == [] && uid == uid0
      ensures Valid()
    {
      cache, previous, files, trace := map[], map[], files0, [];
      uid := uid0;
    }

    /** `_parse_interfaces(path)`. */
    method ParseInterfaces(path: string) returns (r: Result<Document>)
      modifies this`cache
      ensures r == Lookup(old(State()), path)
      ensures cache == AfterLookup(old(State()), path).cache
      ensures old(Valid()) ==> Valid()
    {
      ghost var st := State();
      if path in cache {
        r := Ok(cache[path]);
      } else if path !in files {
        r := Ok(Empty);
      } else {
        r := ParseContents(files[path].contents);
        if r.Ok? {
          cache := cache[path := r.value];
        }
      }
      assert State() == AfterLookup(st, path);
    }

    /** `get_interface(name, config)`: the lines of the `iface` block, `None` standing
        for the empty answer. */
    method GetInterface(name: string, path: string) returns (r: Result<Option<Lines>>)
      modifies this
      ensures r == match Lookup(old(State()), path) case Err(e) => Err(e) case Ok(d) => InterfaceOf(d, name)
      ensures State() == AfterLookup(old(State()), path) && trace == old(trace)
      ensures old(Valid()) ==> Valid()
    {
      LookupMemo(State(), path);
      var parsed := ParseInterfaces(path);
      if parsed.Err? {
        return Err(parsed.error);
      }
      var d := parsed.value;
      if "iface" !in Keys(d.stanzas) {
        return Err(MissingKey("iface"));
      }
      return Ok(Get(TableOf(d.stanzas, "iface"), name));
    }

    /** `build_interface(name, kind, enabled, settings, config)`; `temp` is the fresh path
        `mkstemp` returns. The caller's settings are a value, so the deep copy is
        implicit and they are never changed. */
    method BuildInterface(name: string, kind: BlockKind, enabled: bool, settings: Settings, config: string, temp: string)
      returns (r: Result<Lines>)
      modifies this
      ensures Built(State(), r) == BuildStep(old(State()), uid, name, kind, enabled, settings, config, temp)
      ensures trace == old(trace)
      ensures old(Valid()) && temp !in old(files) ==> Valid()
    {
      var path := config;
      var cfg := Get(settings, "config");
      if cfg.Some? {
        if cfg.value.Multi? {
          return Err(Unhashable("config"));
        }
        path := cfg.value.s;
      }
      assert ConfigPath(settings, config) == Ok(path);
      var parsed := ParseInterfaces(path);
      if parsed.Err? {
        return Err(parsed.error);
      }
      var s, testing := PrepareSettings(settings);
      r := ApplySettings(path, parsed.value, name, kind, enabled, s, testing, temp);
    }

    /** The rest of `build_interface`, once the document is parsed and the settings
        prepared: the auto list and the block are updated in the shared document, and
        unless testing or nothing changed, the file is snapshotted and rewritten. */
    method ApplySettings(path: string, doc: Document, name: string, kind: BlockKind, enabled: bool,
                         s: Settings, testing: bool, temp: string) returns (r: Result<Lines>)
      modifies this
      ensures Built(State(), r) == Apply(old(State()), uid, path, doc, name, kind, enabled, s, testing, temp)
      ensures trace == old(trace)
      ensures old(Valid()) && temp !in old(files) ==> Valid()
    {
      var updated, reconciled := ReconcileDocument(doc, kind, name, enabled, s);
      if reconciled.Err? {
        cache := Aliased(cache, path, updated);
        return Err(reconciled.error);
      }
      r := SettleOutcome(path, name, reconciled.value, testing, temp);
    }

    /** The end of `build_interface` after a successful build: the block is in the
        shared, possibly cached, document, which is written back unless testing or
        nothing changed. */
    method SettleOutcome(path: string, name: string, o: Outcome, testing: bool, temp: string) returns (r: Result<Lines>)
      modifies this
      ensures Built(State(), r) == Settle(old(State()), uid, path, name, o, testing, temp)
      ensures trace == old(trace)
      ensures old(Valid()) && temp !in old(files) ==> Valid()
    {
      cache := Aliased(cache, path, o.doc);
      if testing || !o.sync {
        return Ok(o.lines);
      }
      Rewrite(name, path, o.doc, temp);
      return Ok(o.lines);
    }

    /** The copy of the current file to `temp`, its record, and `_write_file`. */
    method Rewrite(name: string, path: string, d: Document, temp: string)
      modifies this
      ensures State() == Commit(old(State()), uid, name, path, Render(d), temp)
      ensures trace == old(trace)
      ensures old(Valid()) && temp !in old(files) ==> Valid()
    {
      if Valid() && temp !in files {
        CommitKeepsStore(State(), uid, name, path, Render(d), temp);
      }
      if path in files {
        files := files[temp := FileEntry(uid, files[path].contents)];
        previous := previous[name := temp];
      }
      var text := Serialize(d);
      files := Write(files, path, text, uid);
    }

    /** `_previous_down(iface)`. The rollback command's own failure is swallowed, so its
        outcome does not matter here. */
    method PreviousDown(name: string) returns (r: Result<bool>)
      modifies this
      ensures var d := PreviousDownStep(old(State()), uid, name);
        State() == d.store && trace == old(trace) + d.commands && r == d.result
      ensures old(Valid()) ==> Valid()
    {
      if Valid() {
        PreviousDownKeepsStore(State(), uid, name);
      }
      if name !in previous {
        return Ok(false);
      }
      var snap := previous[name];
      if snap !in files {
        return Err(NoSuchFile(snap));
      }
      if files[snap].owner != uid {
        return Err(NotOwned(snap));
      }
      trace := trace + [RollbackCommand(snap, name)];
      files := files - {snap};
      previous := previous - {name};
      return Ok(true);
    }

    /** `_cmd_exec(cmd)`, with `run` standing for `cmd.run_all`. */
    method Exec(cmd: string, run: string -> CommandResult) returns (r: Result<string>)
      modifies this
      ensures State() == old(State()) && trace == old(trace) + [cmd]
      ensures r == CommandOutcome(run(cmd))
    {
      trace := trace + [cmd];
      var result := run(cmd);
      if result.retcode != 0 {
        return Err(CommandFailed(result.retcode, result.stderr));
      }
      return Ok(result.stdout);
    }

    /** `up(iface, opts)`, `config` standing for `opts.get('config')`. */
    method Up(name: string, config: Option<string>, run: string -> CommandResult) returns (r: Result<string>)
      modifies this
      ensures var u := UpStep(old(State()), uid, name, config, run);
        State() == u.store && trace == old(trace) + u.commands && r == u.result
      ensures old(Valid()) ==> Valid()
    {
      if Valid() {
        UpDownKeepStore(State(), uid, name, config, run);
      }
      var down := PreviousDown(name);
      if down.Err? {
        return Err(down.error);
      }
      r := Exec(WithConfig("ifup " + name, config), run);
    }

    /** `down(iface, opts)`. */
    method Down(name: string, config: Option<string>, run: string -> CommandResult) returns (r: Result<string>)
      modifies this
      ensures var d := DownStep(old(State()), uid, name, config, run);
        State() == d.store && trace == old(trace) + d.commands && r == d.result
      ensures old(Valid()) ==> Valid()
    {
      if Valid() {
        UpDownKeepStore(State(), uid, name, config, run);
      }
      var rolled := PreviousDown(name);
      if rolled.Err? {
        return Err(rolled.error);
      }
      if rolled.value {
        return Ok("Brought down " + name + " using previous");
      }
      var out := Exec(WithConfig("ifdown " + name, config), run);
      if out.Err? {
        return Ok("Failed to bring down " + name);
      }
      return Ok("Brought down " + name);
    }

    /** `_clean()`: the cache is dropped, then every snapshot is deleted, in the snapshot
        map's iteration order, and the records are dropped. A missing snapshot stops the
        loop with the records kept, which cannot happen while they are sound. */
    method Clean() returns (r: Result<()>)
      modifies this
      ensures cache == map[] && trace == old(trace)
      ensures r.Ok? ==> previous == map[] && files == old(files) - old(previous).Values
      ensures r.Err? ==> previous == old(previous) && files.Keys <= old(files).Keys &&
                         forall p :: p in files ==> files[p] == old(files)[p]
      ensures old(files).Keys - files.Keys <= old(previous).Values
      ensures old(Valid()) ==> r.Ok?
      ensures r.Ok? ==> Valid()
    {
      cache := map[];
      var remaining, deleted := DeleteSnapshots(previous, files);
      files := remaining;
      if deleted.Err? {
        return Err(deleted.error);
      }
      previous := map[];
      return Ok(());
    }
  }
}
