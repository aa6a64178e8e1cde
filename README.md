# Debian interfaces manager, modelled in Dafny

This project models the Salt execution module that manages Debian's
`/etc/network/interfaces` file (`modules/debian_ip.py`). The module has five parts:

- **Parser.** `_parse_interfaces` reads the file and builds an ordered document.
  - The flat `auto` list collects the names of every `auto` line.
  - Every other stanza kind (`iface`, `mapping`, `allow-*`, or anything else that
    starts with one of the opening words) gets a table from block name to block lines.
  - A block's first line is its opener. Its other lines are the option lines, each
    stripped and indented by two spaces.
  - Parses are memoised per path in the global `_interfaces`.
- **Option ordering and stanza builder.** `_ALLOWED_OPTIONS`, `_build_stanza`,
  `_build_iface` and `_build_mapping` render one block from a settings dictionary.
  - The option keys named for the family and method come first, in the table's order.
  - Every other key follows, in the dictionary's order.
  - Each value of a key gives one `  key value` line.
- **Reconciler.** `build_interface` works on a copy of the settings.
  - It drops the orchestration keys (`config`, `state`, `order`, `fun`, `test`).
  - Depending on `enabled`, it adds the interface to the `auto` list or removes it.
  - It replaces the interface's block in the cached document.
  - It decides whether the file has to be rewritten.
- **Serialiser.** `_write_file` writes the document back: the `auto` line, then
  every block followed by a blank line.
- **Snapshot store.** Before a rewrite, `build_interface` copies the old file to a
  fresh temporary file and records it for the interface in `_previous`.
  - The next `up` or `down` of that interface takes it down with the snapshot, after
    checking that the process owns it, and then deletes the snapshot.
  - `_clean` drops the cache and every snapshot.

## How the model is organised

| module | file | models |
|---|---|---|
| `Outcomes` | outcomes.dfy | `Option`, `Result`, and the exceptions the module raises, as `Error` values |
| `Text` | text.dfy | Python 2's `str.strip()`, `split(c)`, `join` and `startswith`, and text as lines |
| `Assoc` | assoc.dfy | dictionaries as association lists in insertion order; assigning a present key overwrites it in place |
| `Documents` | documents.dfy | the parsed document: `auto` list, then kind → name → lines |
| `Parser` | parser.dfy | `_parse_interfaces` without its cache. `Step`/`Run` are the reference definition; `ParseLines`/`ParseLine` are its loop |
| `Options` | options.dfy | the `_ALLOWED_OPTIONS` table and the lookup-and-concatenate of `_build_iface` |
| `Stanza` | stanza.dfy | `_build_stanza` (two loops), `_build_iface`, `_build_mapping`, and the `getattr` dispatch |
| `Reconciler` | reconciler.dfy | the settings preparation, the `auto` update and the block replacement of `build_interface` |
| `Serializer` | serializer.dfy | `_write_file`, and the round trip through the parser |
| `Steps` | steps.dfy | the global state (`_interfaces`, `_previous`, the files) as a value, and what each public operation does to it |
| `ReadBack` | read_back.dfy | an empty option value: a document `build_interface` writes that the parser reads back differently |
| `Interfaces` | interfaces.dfy | class `Manager`: the same operations as methods that update the state in place |

Each imperative operation of the source is a method. Its loops carry invariants, and
its `ensures` clause ties its result and new state to a function in `Steps`, `Parser`,
`Stanza`, `Reconciler` or `Serializer`. The source's promises are then proved as
lemmas about those functions.

The environment becomes explicit:

- The file system is a map from path to `(owner, contents)`.
- `os.getuid()` is the constant `uid`.
- `tempfile.mkstemp` is the parameter `temp`, a path not yet in use.
- `cmd.run_all` is the parameter `run`, a function from command string to
  return code and output.
- Every command the module issues is appended to the manager's `trace`.

Where the code's evident intent and its literal behaviour part, the model follows
the code:

- **Private-key filter.** The filter is written `k[0:1] == '__'` (modules/debian_ip.py:136).
  The two-underscore literal shows it is meant to skip `__`-prefixed keys, but it
  compares a slice of at most one character with a two-character string, so it never
  skips a key. `Stanza.NeverPrivate` proves this.
- **`ppp` and `wvdial`.** The option table is there to order each method's options
  (its comment at modules/debian_ip.py:22), and both methods have an entry, so they are
  meant to be buildable. But their entries are `( 'provider' )`, a plain string and not
  a tuple (modules/debian_ip.py:32-33). Concatenating it with the `global` tuple raises,
  so these methods cannot be built.
- **"Not in a stanza".** The error does not carry the offending line.
- **Missing snapshot.** A rollback whose snapshot file has disappeared fails in
  `os.stat` (`NoSuchFile`).
- **Replaced snapshot.** A second snapshot for the same interface overwrites the
  record. The older temporary file is left behind, as in the code.

## Model

| member | source | states |
|---|---|---|
| Parser.ParseContents | modules/debian_ip.py:74-98 | Reading an existing file line by line gives the reference parse of its text: the document, or the error of the first bad line |
| Parser.ParseLines | modules/debian_ip.py:69-98 | The loop keeps `auto`, the blocks and the current-block variable `p`. After all lines it holds the reference run's final position; it stops at the first error |
| Parser.ParseLine | modules/debian_ip.py:75-98 | One pass of the loop equals the reference step, branch by branch: skip, append an option line, `NotInStanza`, `auto` tokens with `p` cleared, `MissingToken`, open a block |
| Parser.OpenBlock | modules/debian_ip.py:81-95 | Creating the kind's table, assigning an empty block and appending the opener together leave exactly the one-line block at (kind, key) |
| Parser.StepOpener | modules/debian_ip.py:77-95 | A non-`auto` opener starts the block keyed by its second token (for `mapping`, all later tokens space-joined). The block holds only the stripped opener and replaces any earlier block with that key. Every other block and the `auto` list are unchanged; `p` moves to the new block |
| Parser.StepOption | modules/debian_ip.py:96-98 | With a block open, a non-opener line is stripped, indented by two spaces and appended to that block alone |
| Parser.RunAppend | modules/debian_ip.py:74 | Parsing `a + b` is parsing `a`, then parsing `b` from where `a` stopped. An error in `a` stops the whole parse |
| Parser.RunAuto | modules/debian_ip.py:85-87 | After any successful run, the `auto` list is the earlier list followed by the tokens of every `auto` line, in file order |
| Parser.ParsedAuto | modules/debian_ip.py:68-87 | A parsed file's `auto` list is the concatenation of all its `auto` lines' names, in file order (`test_interfaces`, tests/integration/modules/debian_ip_test.py:31-35) |
| Parser.OptionWithoutBlock | modules/debian_ip.py:97 | With no block open, if the first significant line is an option line, the parse raises "Not in a stanza" |
| Parser.OptionFirst | modules/debian_ip.py:69-97 | An option line before any opener raises "Not in a stanza" |
| Parser.OptionAfterAuto | modules/debian_ip.py:85-97 | An option line after an `auto` line (blank lines and comments aside) raises "Not in a stanza", whatever came before. `auto` closes the open block |
| Parser.ParseWellFormed | modules/debian_ip.py:74-98 | Every successful parse is well formed: <br>• `auto` names contain no space; <br>• stanza kinds are unique and never `auto`; <br>• block names are unique; <br>• line 0 is a stripped opener whose kind and key are the block's; <br>• later lines are two spaces plus a stripped non-opener line |
| Options.IfaceOptionsOk | modules/debian_ip.py:23-38 | The lookup-and-concatenate of line 149 gives an ordering exactly for family `inet` with a method whose entry is a tuple. The ordering then ends with the six `global` hooks |
| Options.IfaceOptionsErrors | modules/debian_ip.py:146-149 | Each failure of the lookup: <br>• a list as family or method is unhashable; <br>• an unknown family or method is a missing key; <br>• `ppp` and `wvdial` fail on the concatenation |
| Stanza.AppendItems | modules/debian_ip.py:131-132 | The inner loop appends one `  key item` line per item, in the items' order |
| Stanza.OrderedPart | modules/debian_ip.py:121-132 | The first loop gives the header plus the reference lines of the ordering keys present. It also returns the settings with each ordering key deleted |
| Stanza.LeftoverPart | modules/debian_ip.py:135-140 | The second loop appends the lines of the remaining settings in their iteration order, applying the private filter as written |
| Stanza.BuildStanza | modules/debian_ip.py:116-143 | `_build_stanza` returns the block the two loops define (header, ordered part, leftovers) |
| Stanza.NeverPrivate | modules/debian_ip.py:136 | The private-key test `k[0:1] == '__'` is false for every key |
| Stanza.StanzaLayout | modules/debian_ip.py:121-140 | A block is: <br>• the header; <br>• each ordering key's values, at the key's first place in the ordering; <br>• then every non-ordering key's lines, in settings order |
| Stanza.StanzaPermutation | modules/debian_ip.py:121-143 | Line 0 is the header. The other lines are a permutation of all the settings' lines, so each key's values appear exactly once, and there are 1 + (number of values) lines |
| Stanza.ChosenFlat | modules/debian_ip.py:125-132 | With an ordering that names no key twice, the ordered part is each ordering key's lines in turn |
| Stanza.BuildIface | modules/debian_ip.py:145-151 | `_build_iface` pops `family`, then `method`, looks up the ordering, and builds from what is left. It returns the first lookup error |
| Stanza.IfaceBlockOutcome | modules/debian_ip.py:145-151 | `_build_iface` succeeds iff `family` is `inet` and `method` is a tuple method. Otherwise it fails with a missing `family`, a missing `method`, or `NotConcatenable` for `ppp`/`wvdial` |
| Stanza.IfaceBlockInet | modules/debian_ip.py:146-151 | For `inet` and a tuple method, the block is built from the settings without `family` and `method`, ordered by that method's options followed by the `global` hooks |
| Stanza.IfaceBlockLines | modules/debian_ip.py:145-151 | The header is `iface <name> inet <method>`. `family` and `method` are never rendered. The other lines are a permutation of the remaining settings' lines |
| Stanza.IfaceBlockOrder | modules/debian_ip.py:149-151 | The exact layout: header, the method's options and then the hooks present, then every other key in settings order (`test_build_iface_fresh`, tests/integration/modules/debian_ip_test.py:55-70) |
| Stanza.BuildMapping | modules/debian_ip.py:153-156 | `_build_mapping` builds `mapping <names>` with the ordering `script`, `map` |
| Stanza.MappingBlockLines | modules/debian_ip.py:153-156 | A mapping block lists `script`, then `map`, then every other key in settings order. Its lines after the header are a permutation of all the settings' lines |
| Stanza.MappingExample | tests/integration/modules/debian_ip_test.py:100-107 | A `script` and a two-valued `map` give the header, the script line and the two map lines, in that order (`test_build_mapping`) |
| Stanza.Build | modules/debian_ip.py:224 | The `getattr` dispatch picks `_build_iface` for `iface` and `_build_mapping` for `mapping` |
| Reconciler.PrepareSettings | modules/debian_ip.py:198-211 | The builder gets the caller's settings without `config`, `state`, `order`, `fun` and `test`. `testing` is the Python truth value of the caller's own `test` |
| Reconciler.DeleteKeys | modules/debian_ip.py:208-209 | The loop `for x in keys: if x in settings: del settings[x]` deletes exactly the listed keys |
| Reconciler.PreparedKeys | modules/debian_ip.py:201-211 | No orchestration key reaches the builder, and every other key reaches it with its value unchanged |
| Reconciler.TestSurvives | modules/debian_ip.py:201-211 | The deletions before `settings.pop('test')` do not touch `test`, so the value read is the caller's |
| Reconciler.RemoveFirstCount | modules/debian_ip.py:221 | `list.remove` takes away exactly one occurrence |
| Reconciler.RemoveFirstAt | modules/debian_ip.py:221 | `list.remove` takes out the first occurrence and keeps the order of the rest |
| Reconciler.AutoChanged | modules/debian_ip.py:213-222 | The `auto` list changes exactly when the kind is `iface` and the name's presence disagrees with `enabled` |
| Reconciler.AutoCounts | modules/debian_ip.py:213-222 | Occurrence counts after the update: <br>• `mapping` leaves the list alone; <br>• enabling adds one copy only when the name is absent; <br>• disabling removes one copy only when present; <br>• other names keep their counts |
| Reconciler.AutoMembership | modules/debian_ip.py:214-222 | After enabling, the name is in `auto`. After disabling, it is absent if it occurred at most once |
| Reconciler.AutoSettles | modules/debian_ip.py:214-222 | Applying the update twice equals applying it once, when enabling, or when the name occurred at most once |
| Reconciler.DuplicateAutoLingers | modules/debian_ip.py:220-221 | Counterexample to unconditional idempotence: disabling `eth0` in `[eth0, eth0]` leaves `[eth0]`, and only a second call empties it |
| Reconciler.ReconcileFrame | modules/debian_ip.py:214-233 | After reconciling: <br>• `auto` is updated; <br>• the (kind, name) block is the built lines; <br>• every other block of every kind is unchanged |
| Reconciler.SyncIffChanged | modules/debian_ip.py:205-233 | `sync` is true exactly when the document changed, i.e. when the `auto` list or that block changed |
| Reconciler.ReconcileSettles | modules/debian_ip.py:214-233 | Reconciling the result again with the same arguments gives the same document and `sync = false` (when enabling, or the name occurred at most once) |
| Reconciler.UpdateAutoList | modules/debian_ip.py:214-222 | `append`/`remove` on the list give the updated list. The flag is raised exactly when it changed |
| Reconciler.ReplaceBlock | modules/debian_ip.py:226-233 | The block is created empty when missing, then replaced by the lines. The flag is raised exactly when the old block (or `[]`) differs from them |
| Reconciler.ReconcileDocument | modules/debian_ip.py:213-233 | It returns the reconciliation and the shared document as a failing build leaves it: `auto` already updated, blocks untouched |
| Serializer.WriteBlocks | modules/debian_ip.py:111-113 | The inner loop writes each block's lines joined by newlines, then a blank line |
| Serializer.WriteStanzas | modules/debian_ip.py:106-113 | The outer loop writes the kinds' blocks in order |
| Serializer.Serialize | modules/debian_ip.py:103-114 | The written text: `auto <names>` and a blank line only when the list is non-empty, then every block with a blank line after it |
| Serializer.RenderIsLines | modules/debian_ip.py:103-114 | The written text is a sequence of newline-free lines, each ended by a newline |
| Serializer.AutoRun | modules/debian_ip.py:85-87 | Read from the start of a file, the `auto` line written at line 109 and its blank line give back the same list, with no block open |
| Serializer.StanzasRun | modules/debian_ip.py:92-113 | The written blocks read back as the same kinds and blocks in the same order, headers and option lines included |
| Serializer.RoundTrip | modules/debian_ip.py:57-114 | Parsing the written text of any well-formed document gives that document back |
| Serializer.ParseWriteParse | modules/debian_ip.py:57-114 | parse ∘ write ∘ parse = parse: writing a parsed document and parsing the text again gives the same document. That a rewrite keeps every other stanza as parsed is Reconciler.ReconcileFrame with Steps.BuildWrites |
| Steps.LookupMemo | modules/debian_ip.py:66-100 | Parsing the same path again returns the same result and changes nothing more. The snapshots and files are never touched |
| Steps.LookupUncached | modules/debian_ip.py:71-100 | Nothing is cached for a missing file or for a grammar error (tests/integration/modules/debian_ip_test.py:48-53) |
| Steps.CacheHides | modules/debian_ip.py:66 | Once cached, a path's document is returned whatever the file now holds, until `_clean` |
| Steps.InterfaceOfEmpty | modules/debian_ip.py:178-183 | A missing file (lines 71-72) parses to a document with no `iface` stanza, so `get_interface` on it raises a `KeyError` for `iface` |
| Steps.CommitEffect | modules/debian_ip.py:238-248 | A commit of an existing file: <br>• copies its old text to the fresh temporary file, owned by the process, and records it for the interface; <br>• then leaves the new text in the file. <br>Without the file, nothing is recorded. The cache is untouched and no file is deleted |
| Steps.ApplyEffect | modules/debian_ip.py:224-250 | Files and snapshot records change only when the build succeeded, `sync` is set and the call is not a test, and then by exactly one commit of the reconciled document; in every other case they are unchanged |
| Steps.BuildSplit | modules/debian_ip.py:198-204 | Resolving `config` and parsing through the cache leave the files and the snapshot records untouched |
| Steps.BuildTestMode | modules/debian_ip.py:211-236 | With `test` set, no snapshot is taken and no file is written, whatever else happens |
| Steps.BuildWrites | modules/debian_ip.py:204-248 | A change to files or snapshots implies: <br>• every lookup succeeded; <br>• the block built and `sync` was set, not in test mode; <br>• the answer is the built lines; <br>• the old text sits in the recorded snapshot (only when the file existed); <br>• the file holds the rendered document, which parses back to it when the built document is well formed (see ReadBack.EmptyValueResyncs for one that is not) |
| Steps.ApplyCaches | modules/debian_ip.py:204-233 | When the document came from the cache, the cache afterwards holds the reconciled document: the build updates the cached object in place |
| Steps.ApplySettled | modules/debian_ip.py:231-250 | A reconciliation that changes nothing leaves the whole state as it was and returns the lines |
| Steps.BuildRepeat | modules/debian_ip.py:204-248 | Repeating an identical successful `build_interface` on an existing or cached path gives the same answer with no write and no new snapshot (when enabling, or the name occurred at most once) |
| Steps.BuildFresh | modules/debian_ip.py:71-100 | On a path that is neither cached nor on disk, `build_interface` reconciles against `{auto: []}`, caches nothing (the missing-file branch returns before the cache is written), and writes the file unless testing or nothing changed; no snapshot is taken |
| Steps.BuildRepeatFresh | modules/debian_ip.py:204-248 | Repeating a successful `build_interface` on a path that did not exist (as in `test_build_iface_fresh`, tests/integration/modules/debian_ip_test.py:55-72) gives the same answer and leaves files and snapshots as the first call did, when the built document is well formed. The second call parses the newly written file and caches it, when the file was written |
| ReadBack.EmptyValueBlock | modules/debian_ip.py:135-140 | A leftover key with an empty value is rendered as `"  x "`. Building the mapping `m` with it on a missing file sets `sync`, and the document is not well formed: no parse produces it |
| ReadBack.EmptyValueRereads | modules/debian_ip.py:74-98 | The text written for that document parses back with the option line stripped to `"  x"` |
| ReadBack.EmptyValueResyncs | modules/debian_ip.py:224-248 | Reconciling the same settings against the re-parsed file sets `sync` again. So a repeated `build_interface` snapshots the file it wrote itself and rewrites it, which is why the read-back and repeat lemmas need a well-formed document |
| Steps.CommitKeepsStore | modules/debian_ip.py:238-248 | A commit to a fresh temporary path keeps the snapshot records sound: every record exists and no two interfaces share one |
| Steps.BuildKeepsStore | modules/debian_ip.py:185-250 | `build_interface` keeps the snapshot records sound |
| Steps.PreviousDownCases | modules/debian_ip.py:252-272 | `_previous_down` outcomes: <br>• no record: `False`, nothing issued; <br>• an error changes nothing and issues nothing; <br>• `True` exactly when the recorded snapshot exists and is owned by the process. <br>With `True`, `ifdown -i "<snap>" <name>` was issued, the snapshot and its record are gone, and the cache is untouched |
| Steps.PreviousDownKeepsStore | modules/debian_ip.py:252-272 | With sound records, the only possible error is the ownership check, and soundness is kept |
| Steps.UpDownPlain | modules/debian_ip.py:287-325 | Without a snapshot: <br>• `up` issues exactly `ifup <name>` and returns its output or its failure; <br>• `down` issues exactly `ifdown <name>` and reports success or failure as a message (tests/integration/modules/debian_ip_test.py:110-128) |
| Steps.UpWithSnapshot | modules/debian_ip.py:287-302 | With an owned snapshot, `up` issues the snapshot `ifdown` and then `ifup <name>`, and consumes the snapshot |
| Steps.UpAfterBuild | modules/debian_ip.py:298-302 | After a `build_interface` that took a snapshot (lines 238-246), `up` issues `ifdown -i "<temp>" <name>` then `ifup <name>` and deletes the temporary file (tests/integration/modules/debian_ip_test.py:131-150) |
| Steps.UpDownKeepStore | modules/debian_ip.py:287-325 | `up` and `down` keep the snapshot records sound |
| Steps.DeleteSnapshots | modules/debian_ip.py:53-54 | The `_clean` loop unlinks every recorded snapshot and touches no other file. Whether it finishes or stops, every file it removed is a recorded snapshot. Only a missing snapshot stops it, which cannot happen while the records are sound |
| Interfaces.Manager.constructor | modules/debian_ip.py:46-47 | A fresh import: empty cache, no snapshots, sound records |
| Interfaces.Manager.ParseInterfaces | modules/debian_ip.py:57-101 | The answer and the new cache are those of the cached lookup (also `interfaces(config)`, modules/debian_ip.py:158-167). Sound snapshot records stay sound |
| Interfaces.Manager.GetInterface | modules/debian_ip.py:169-183 | The lines of the `iface` block of that name, `None` for the empty answer. It fails when the parse fails or there is no `iface` stanza. Sound snapshot records stay sound |
| Interfaces.Manager.BuildInterface | modules/debian_ip.py:185-250 | The answer and the whole new state are those of the `build_interface` step. No command is issued. Sound records stay sound when `temp` is a fresh path |
| Interfaces.Manager.ApplySettings | modules/debian_ip.py:213-250 | After the parse, the shared document is updated (`auto` first, so a failing build leaves only that change in the cache) and committed when needed. Sound records stay sound when `temp` is a fresh path |
| Interfaces.Manager.SettleOutcome | modules/debian_ip.py:226-250 | The reconciled document is what the cache holds when the path was cached. The file is committed unless testing or nothing changed. Sound records stay sound when `temp` is a fresh path |
| Interfaces.Manager.Rewrite | modules/debian_ip.py:238-248 | The snapshot when the file exists, then `_write_file` with the serialised document. Sound records stay sound when `temp` is a fresh path |
| Interfaces.Manager.PreviousDown | modules/debian_ip.py:252-272 | State, issued commands and answer are those of the `_previous_down` step. Sound records stay sound |
| Interfaces.Manager.Exec | modules/debian_ip.py:274-285 | The command is issued. A non-zero return code fails with that code and the error output; otherwise the output is returned |
| Interfaces.Manager.Up | modules/debian_ip.py:287-302 | State, commands and answer are those of the `up` step: the rollback first, its errors propagating, then `ifup`, with `-i <config>` when given. Sound records stay sound |
| Interfaces.Manager.Down | modules/debian_ip.py:304-325 | State, commands and answer are those of the `down` step: the rollback if there is a snapshot, otherwise `ifdown`, whose failure becomes a message. Sound records stay sound |
| Interfaces.Manager.Clean | modules/debian_ip.py:49-55 | The cache is emptied. With sound records, every snapshot file is deleted and the records dropped; no other file is touched. On either outcome, only recorded snapshot files can have disappeared. A successful clean leaves sound records |

## Left out

- `__virtual__` (modules/debian_ip.py:12-18) is not modelled: it is loader plumbing that checks the OS family.
- `_cmd_exec` does not run anything. `cmd.run_all` is the parameter `run`, and the issued commands are recorded in `trace`.
- Logging (`log.info`, `log.debug`, `log.warning`, `log.exception`) is left out: no behaviour depends on it.
- File permissions are not modelled; the `os.chmod(temp, 0600)` of a snapshot is left out. File ownership is modelled, since the rollback checks it.
- `open`, `file`, `shutil.copyfile`, `os.stat`, `os.unlink` and `os.path.exists` act on the abstract file map. A file is read as the pieces between newlines; after `strip()` this gives the same lines as Python's line iterator.
- Interfaces.Manager.BuildInterface: `tempfile.mkstemp` is the parameter `temp`. The lemmas that depend on freshness require that `temp` is not an existing file.
- `interfaces(config)` (modules/debian_ip.py:158-167) is `_parse_interfaces(config)` and has no member of its own.
- Settings values are strings or lists of strings. Other Python values (numbers, booleans, nested dictionaries) are not modelled. `test` is read for its truth value as a string or list.
- `get_interface` answers `''` when the interface is missing; the model returns `None`.
- Dictionaries iterate in insertion order, and an assignment to a present key keeps its place. Python 2 makes no such promise for the inner tables, but the tests rely on it.
- Steps.DeleteSnapshots: `_clean` deletes the snapshots in the snapshot map's iteration order. The model chooses an arbitrary order, so which snapshot an error reports is not determined.
- Steps.BuildWrites, Steps.BuildRepeatFresh: that the written file parses back to the built document, and that a repeat build on a fresh path writes nothing, are proved only when the built document is well formed. The source breaks both for settings that render lines the parser reads differently: an empty value or one ending in whitespace (the parser strips it), a value holding a newline, and a leftover key starting with `iface`, `mapping`, `auto`, `allow-` or `#` (read back as an opener or a comment). An interface name can break it too, for instance one holding a space in an `iface` header, whose key is read back as the first word. ReadBack.EmptyValueResyncs works through the empty-value case. Which names and settings give a well-formed document is not characterised.
- Stanza.Build: `build_interface` picks the builder with `getattr` on `_build_<iface_type>`, so any `iface_type` other than `iface` and `mapping` fails once the file has been parsed and cached: `AttributeError` in general, and `TypeError` for `stanza`, whose `_build_stanza` takes three arguments. The model's block kind has only those two cases, so this error path is not modelled.
- Stanza.IfaceBlockOrder: the literal settings of `test_build_iface_fresh` are not evaluated; the general lemma states the layout that test checks.
- A rewrite does not keep the file text of the other stanzas: the parser drops comments and blank lines and re-indents option lines to two spaces, so `_write_file` emits them normalised. The model states this: documents, not file texts, are preserved.
- Values, not references: `build_interface` returns the very list stored in the cached document, and `get_interface` hands back the cached list itself, so a Python caller can later mutate the cache through them. The model returns values, and this aliasing is not captured.
- Network-interface state is not modelled: only the commands issued for it are.
- The traffic-shaping module exercised by tests/integration/modules/shaping_test.py is not part of this model; its source is not among the core.
- The example interfaces file used by `test_interfaces` and `test_get_interface` is not part of this model, so those tests' literal expectations are not restated.
