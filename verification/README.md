# Verified models of container-bin

`container-bin` (`cb`) lets ordinary command names run tools inside containers. It keeps a
registry of tools in a small text format, pins images in a lockfile, replaces its own binary
and every shim that shares its bytes, repairs Python environments, audits Windows access
rules, and translates Windows arguments into container paths. This project models those
parts in Dafny and proves what they promise.

Code that only computes is written as functions. Code that changes state is written as it is
there: loops with flags and builders are methods with loops, objects with fields are classes.
Each such method is proved against a specification function or a property, and the promises
are lemmas about those. Files, clocks, locks and foreign calls are nondeterministic: an
effect may succeed, fail or be preceded by a crash at any point, and a file may be read
differently each time. What must hold then is proved for every behaviour; that the code also
gets its work done is proved for the behaviours in which every call works.

## The modules

- `text`, `decimal`, `sorting`, `octets`, `wrappers`: strings, numerals, sorted sets, bytes.
- `toml`: the quote-aware scanners and the quoting codec under every text format.
- `registry`: the registry, its line parser, and the rules an accepted registry satisfies;
  `printedregistry`: what every key and section says; `mountspecs`: what a volume or host
  mount entry says.
- `aliases`: default aliases: validation, resolution, switching and project overlays.
- `registryfile`, `switchdefault`, `builtin`, `upgrade`, `migration`: the editors that rewrite
  registry text, each proved to do to the parsed registry exactly what it should; `shortfalls`:
  accepted registries on which they do less than they promise.
- `printedlines`, `lockfile`, `truststore`: the printed formats and their parsers;
  `lockedtexts`: the references and times in a lockfile.
- `atomicio`: crash-atomic replacement of a file, and the loaders that recover it.
- `mutationlock`: the lock file, as interleaved processes.
- `selfupdate`, `version`: the update transaction and the order of versions.
- `descriptor`, `aclaudit`: security descriptors and the audit that reads them.
- `pythonenv`: the migration of interpreter links to copies.
- `pathmap`: arguments to container paths and back.
- `demux`: the frame decoder of the container engine's attach stream.

## Where the code falls short of its promise

- A version 1 section of a migrated profile may spell out its three labels as empty
  (`default_alias = ""` and the other two). It is accepted and stock, and after the migration
  the empty labels override those written in front of them. A migrated profile equals the
  built-in one exactly when its section sets no label key (`Migration.MigratedEqualsBuiltin`);
  in a written upgrade it sets none or all three (`Migration.LabelsAllOrNone`); and with all
  three empty in both profiles of one alias, as in `node` and `node22`
  (`Shortfalls.NodeTwins`), the upgrade is acceptable and the alias no longer resolves
  (`Shortfalls.EmptyLabelsLoseAnAlias`).
- Switching a default can be refused on an accepted registry in two families of cases. No
  header is spelled exactly as the family's table, although the parser accepts a space after
  the prefix: respelling the header of any registry that can be switched is such a case
  (`SwitchDefault.RespelledHeaderRefuses`). Or the rewritten line outgrows the 64 KiB scanner:
  the built-in registry with a long comment after the selection is such a case
  (`Shortfalls.LongSelectionRefuses`). In all other cases it succeeds
  (`SwitchDefault.SwitchChangesSelection`).
- Saving a trust store does not look at its size and loading does: a valid store loads back
  exactly when its text fits one mebibyte and every line fits the scanner
  (`TrustStore.SavedLoadsBack`); a tool name as long as a scanner line is lost
  (`TrustStore.LongNameIsLost`).
- The ACL audit treats an absent path as optional when any optional asset names it, also if it
  is required (`AclAudit.AbsentRequiredAsset`). Its clean report accounts for every ancestor of
  every target, and covers the required ones when no optional asset is one of them
  (`AclAudit.Scan.Run`, `AclAudit.RequiredAreCovered`).
- A failed removal of the rollback directory turns a complete update into an error return;
  `SelfUpdate.Host.Apply` keeps that case apart.

## Model

| member | source | states |
|---|---|---|
| SelfUpdate.Host.Apply | internal/selfupdate/apply.go:53-210 | whatever the replacements and the smoke test do, a nil return means `cb.exe` and every discovered shim hold the staged bytes and the smoke test ran on them once and passed; an error means all files as before, or the recovery copy kept with the old bytes, or a complete update whose rollback directory could not be removed; a failed precheck or a cancelled context refuses before anything is changed; when every call works, the update is kept exactly when the smoke test passes and rolled back exactly when it fails; no other file changes, except one hard-linked to a managed file that a damaging replacement writes in place |
| SelfUpdate.Host.Rollback | internal/selfupdate/apply.go:212-271 | for any mix of old and new files: nil means all old bytes; old files stay old unless a replacement damages its destination; a file that is neither old nor new is never overwritten; reliable replacements always restore |
| SelfUpdate.Host.RollbackShims | internal/selfupdate/apply.go:234-258 | the loop over the shims keeps the same guarantees at whatever index it stops failing |
| SelfUpdate.Host.ReplaceManagedFile | internal/selfupdate/apply.go:366-389 | link or copy to a reserved name, then rename: the destination ends with the source's bytes or, on failure, unchanged; it succeeds when every call works, and then the destination is the source's own file where hard links work |
| SelfUpdate.Host.DiscoverManagedShims | internal/selfupdate/apply.go:273-315 | returns exactly the entries with shim names whose bytes are those of the installed binary |
| SelfUpdate.Host.Mutate | internal/selfupdate/apply.go:148-209 | from the first replacement on: all new after one passed smoke test on the new bytes, all old, or the recovery copy is kept; when every call works the test alone decides |
| Version.ParseVersionLoop | internal/selfupdate/version.go:18-67 | computes the version of every text, or refuses it |
| Version.PrintedIsParsed | internal/selfupdate/version.go:18-67 | `v1.2.3-a.b` with any three numbers in range and any valid identifiers is accepted, and its parts are those numbers, from the left, and identifiers |
| Version.ParsedIsPrinted | internal/selfupdate/version.go:18-67 | every accepted text has that form |
| Version.Compare | internal/selfupdate/version.go:69-117 | is the precedence of sections 11.2 to 11.4 of Semantic Versioning 2.0.0, with numbers of any size |
| Version.PrecedenceOfTexts | internal/selfupdate/version.go:69-117 | the precedence of two versions as they are written: major, minor and patch number from the left, then a prerelease below its release, then the identifiers |
| Version.PrecedenceIsTotalOrder | internal/selfupdate/version.go:69-117 | precedence is a total order on accepted versions |
| Version.ParsingIsInjective | internal/selfupdate/version.go:18-67 | two accepted texts with equal parts are the same text |
| Version.EqualPrecedenceMeansEqualText | internal/selfupdate/version.go:69-117 | neither of two accepted versions precedes the other exactly when their texts are equal |
| Decimal.CanonicalOrder | internal/selfupdate/version.go:87-109 | length first, then text, is the numeric order of canonical numerals |
| AtomicIo.Directory.WriteFile | internal/atomicio/atomicio.go:11-48 | nil: the new content is what a reader gets; error: the old; a crash between any two steps: one of the two; when every call works it succeeds on every settled directory, over an existing file or none, and leaves nothing beside it |
| AtomicIo.Directory.RecoverFromBackup | internal/atomicio/atomicio.go:50-70 | recovery never changes the logical content, re-establishes the start invariant and reports what it did |
| AtomicIo.Directory.LoadPath | internal/registry/file.go:269-302 | the recovering and the read-only loader answer the same function of the directory, and do answer when every call works; the latter changes nothing |
| AtomicIo.Session | internal/atomicio/atomicio.go:11-70 | over any run of loads and writes with crashes anywhere the file is an atomic register: every load answers for a content the register may hold after the completed, failed and interrupted writes before it; when every call works the run is that of a sequential register |
| AtomicIo.EmptyTextIsRejected | internal/registry/file.go:378-391 | the registry parser rejects the empty text, as the loader needs |
| MutationLock.MutualExclusion | internal/mutationlock/mutationlock.go:41-98 | in every interleaving at most one process is between Acquire's return and its release, and the file then holds its line |
| MutationLock.RemovalsAreOwn | internal/mutationlock/mutationlock.go:45-77 | every actor removes the file at most once, and a release only its own line |
| MutationLock.ReleaseIsOnce | internal/mutationlock/mutationlock.go:45-77 | a released lock is not released again |
| MutationLock.OthersCannotInterfere | internal/mutationlock/mutationlock.go:41-98 | no step of another process changes the file or lets it in while the owner is inside |
| MutationLock.AcquireThenRelease | internal/mutationlock/mutationlock.go:41-98 | a free lock can be acquired from every reachable state, and released again |
| Toml.StripCommentLoop | internal/toml/toml.go:12-33 | the flag scanner cuts at the first hash outside quotes |
| Toml.StripIdempotent | internal/toml/toml.go:12-33 | stripping twice is stripping once |
| Toml.RenderedLineStrips | internal/toml/toml.go:12-33 | a rendered key/value line is left unchanged |
| Toml.ParseQuotedQuote | internal/toml/toml.go:58-68 | a quoted value parses back to itself, whatever characters are printable |
| Toml.ParseStringArrayLoop | internal/toml/toml.go:81-130 | the element loop computes the array grammar, errors included |
| Toml.ParseArrayArray | internal/toml/toml.go:132-139 | a rendered array parses back to itself |
| Registry.ParseLoop | internal/registry/registry.go:449-740 | the one-pass parser with its two maps and current section, and its checks tool by tool, equals the fold over lines |
| PrintedRegistry.ToolKeysFill | internal/registry/registry.go:530-676 | the 22 keys of a tool section, each with a value in its literal form, fill the 22 fields they name |
| PrintedRegistry.OnlyPrintedKeys | internal/registry/registry.go:530-676 | no other key is supported |
| PrintedRegistry.ParsePrinted | internal/registry/registry.go:449-740 | a registry printed in any order is accepted exactly when it meets the rules and its lines fit the scanner, and then parses back to itself |
| PrintedRegistry.ParsedHasShape | internal/registry/registry.go:449-740 | every accepted registry can be printed, and meets the rules |
| PrintedRegistry.ReprintedIsTheSame | internal/registry/registry.go:449-740 | parsing, printing and parsing again is parsing |
| Registry.CheckTool | internal/registry/registry.go:682-735 | the checks on one tool decide the predicate of an acceptable tool |
| Registry.CheckHostMounts | internal/registry/registry.go:1139-1184 | the walk over the mounts decides whether they are valid, apart from each other and from the volumes, and outside the managed paths |
| MountSpecs.VolumeReads | internal/registry/registry.go:977-1008 | `name:/a/b` is a volume at that path exactly when the name is valid and the path is none of the Python environment's |
| MountSpecs.HostMountReads | internal/registry/registry.go:1016-1116 | `source:/a/b:mode` is a mount at that path exactly when the mode is `ro` or `rw` and the source is a drive path or starts with the user profile |
| MountSpecs.ManagedPaths | internal/registry/registry.go:1139-1184 | a mount may not lie at or under the workspace, `/cb`, the virtual environment or its package cache |
| Registry.RunOfConcat | internal/registry/registry.go:449-470 | parsing joined lines is running the line automaton over them |
| Registry.ReadHeader | internal/toml/toml.go:40-56 | the header an editor sees on a raw line is the parser's |
| RegistryFile.RewriteWithoutTools | internal/registry/file.go:393-428 | succeeds exactly when what is left is acceptable, and then parses to the old registry minus the named tools |
| RegistryFile.RemovalCommutes | internal/registry/file.go:393-428 | removing tools commutes with parsing, errors included |
| RegistryFile.ExposedProvenanceLines | internal/registry/file.go:441-469 | computes exactly the generated comments to keep and to drop |
| RegistryFile.WrittenLines | internal/registry/file.go:393-469 | line by line: a generated comment stays exactly when the tool below it stays, whatever section it stands in; any other line stays unless it is in the section of a removed tool |
| RegistryFile.ProvenanceIsMeaningless | internal/registry/file.go:441-469 | generated comment blocks say nothing to the parser |
| Aliases.ValidateDefaults | internal/registry/registry.go:755-828 | the verdict of the map-order dependent passes is a predicate of the registry alone |
| Aliases.Resolve | internal/registry/registry.go:834-848 | the answer does not depend on map order |
| Aliases.ToolNames | internal/registry/registry.go:851-869 | the sorted names of all concrete tools and all selected aliases, each once |
| Aliases.ResolvesExactlyToolNames | internal/registry/registry.go:834-869 | a name resolves exactly when its lower case is among the tool names |
| Aliases.AcceptedIsUnambiguous | internal/registry/registry.go:755-828 | in an accepted registry no alias has two suppliers |
| Aliases.DefaultInfo | internal/registry/registry.go:898-921 | the family's selection, versions and aliases, sorted |
| Aliases.ValidateOverlay | internal/projectconfig/projectconfig.go:155-178 | accepts exactly the overlays without defaults whose tools have no alias labels and none of the capabilities an overlay may not use |
| Aliases.Merge | internal/projectconfig/projectconfig.go:181-204 | merges exactly the overlays that shadow nothing, and the result is acceptable |
| Aliases.MergeKeepsResolution | internal/projectconfig/projectconfig.go:181-204 | every name the global registry resolves still resolves to the same, and overlay names to the bounded overlay tools |
| Aliases.MergeKeepsDefaults | internal/projectconfig/projectconfig.go:181-204 | the merged registry satisfies the alias rules |
| Aliases.SwitchKeepsNames | internal/registry/file.go:304-376 | switching a selection leaves the set of tool names unchanged |
| Aliases.SwitchKeepsDefaults | internal/registry/file.go:304-376 | selecting another existing version keeps a registry acceptable, so the final re-parse cannot reject it for that |
| SwitchDefault.SetDefaultVersion | internal/registry/file.go:304-376 | the complete outcome for every input: unchanged, refused in the stated cases, or the edited text, which parses to the old registry with one selection changed |
| SwitchDefault.SwitchChangesSelection | internal/registry/file.go:304-376 | the edited text parses to the switched registry unless no header names the table or the new line is too long |
| SwitchDefault.EditTouchesOneLine | internal/registry/file.go:337-363 | the edited text is the old one with one line rewritten, the one the parser takes the selection from; its indentation and its comment stay |
| SwitchDefault.RespelledHeaderRefuses | internal/registry/file.go:341-363 | in any registry that can be switched, a space after the prefix of the family's header keeps what it parses to and makes the switch refuse |
| Shortfalls.LongSelectionRefuses | internal/registry/file.go:348-367 | the built-in registry, with the selection of a family on one line that fills the scanner, is accepted, and the switch to another configured version is refused for the length of the new line |
| Builtin.SectionsFromTOML | internal/registry/registry.go:414-443 | the flush-and-collect loop returns the text of every section, or nothing on a malformed header |
| Builtin.SectionsOfBuiltin | internal/registry/registry.go:398-412 | the sections are those of the parsed built-in registry, and each defines its tool or family in whatever registry it is appended to |
| Upgrade.RunAppendix | internal/registry/file.go:87-97 | reading the appended sections adds exactly the missing families and tools |
| Upgrade.AppendMissing | internal/registry/file.go:68-103 | does nothing exactly when nothing is missing; otherwise writes exactly when the merged registry is acceptable and all lines fit, and the text then parses to it |
| Upgrade.UpgradedParse | internal/registry/file.go:82-103 | the text with the appendix parses to the merged registry or is refused |
| Upgrade.MergedIsComplete | internal/registry/registry.go:874-889 | a merged registry needs no further upgrade |
| Migration.TheTableIsOk | internal/registry/file.go:113-120 | the migration table never confuses two profiles |
| Migration.PlanMoves | internal/registry/file.go:128-153 | stops at the first move that would clobber a profile or whose profile is not the stock one, and says which; when every move fits, plans the moves and the resulting names |
| Migration.MirrorAll | internal/registry/file.go:162-190 | at every line the parser on the rewritten text holds the moved image of the registry on the old text |
| Migration.EditLoop | internal/registry/file.go:160-190 | the line loop writes the edited lines and notices schema lines |
| Migration.RewrittenLine | internal/registry/file.go:160-190 | the schema line and the headers of moved profiles are replaced, the comment after such a header stays, every other line is written as it was read |
| Migration.MigratedParse | internal/registry/file.go:127-231 | the migrated text parses to the moved registry with everything built in, exactly when that is acceptable and all lines fit |
| Migration.UpgradeV1 | internal/registry/file.go:127-231 | the complete outcome of the version 1 upgrade: refused with the first misfit, or every moved profile was stock and the text is written exactly when the merged registry is acceptable and all lines fit, and parses to it |
| Migration.MigrationKeeps | internal/registry/file.go:127-231 | profiles that are not migrated keep their value, every built-in is there, nothing else is, no further upgrade is needed |
| Migration.MigratedEqualsBuiltin | internal/registry/file.go:128-186 | every profile that an accepted plan moves equals the built-in one exactly when its section sets no label key |
| Shortfalls.EmptyLabelsLoseAnAlias | internal/registry/file.go:113-190 | two stock profiles of one alias whose sections spell out three empty labels are accepted, pass the plan and merge into an acceptable registry, in which the profiles are not the built-in ones and the alias no longer resolves |
| Shortfalls.NodeTwins | internal/registry/file.go:113-120 | the `node` and `node22` rows of the migration table are such a pair |
| Migration.LabelsAllOrNone | internal/registry/file.go:127-231 | when the merged registry is acceptable, the section of a migrated profile sets no label key or all three |
| Migration.AppendMissingDefaultTools | internal/registry/file.go:56-103 | the complete outcome for every input: refused as unreadable, done with nothing to do exactly when nothing is missing, or the outcome of the upgrade for the version; what it writes parses to the old registry, its stock version 1 profiles moved, with everything built in that it lacked, and needs no further upgrade |
| Migration.UpgradeTwice | internal/registry/file.go:56-103 | a second upgrade writes nothing |
| LockFile.ParseLoop | internal/lockfile/lockfile.go:139-303 | the parser with its open entry and flush closure equals the fold over lines |
| LockFile.FlushEntry | internal/lockfile/lockfile.go:148-193 | the checks on a finished entry, in order, and its filing |
| LockFile.ValidateEvidence | internal/lockfile/lockfile.go:312-375 | the checks on a verification record decide that it speaks of the locked digest and the configured repository, and is signed and dated as the format requires |
| LockFile.RenderLoop | internal/lockfile/lockfile.go:413-446 | the printed text does not depend on map order |
| LockFile.ParseRender | internal/lockfile/lockfile.go:139-446 | with unconfused section names the printed lock is accepted exactly when it is committable, and then reads back as the same lock |
| LockFile.SetAllFields | internal/lockfile/lockfile.go:243-291 | the printed fields of any entry read back as the entry |
| LockFile.WriteMode | internal/lockfile/lockfile.go:686-707 | refuses exactly what would not read back, touching nothing; commits the printed lock, always when every call works |
| LockFile.Load | internal/lockfile/lockfile.go:102-123 | recovers and answers for the logical content of the file |
| LockFile.WriteThenLoad | internal/lockfile/lockfile.go:102-123 | what a write commits is what the next load returns |
| LockFile.MatchRepoDigest | internal/lockfile/lockfile.go:492-504 | the first digest of the configured repository, if there is one |
| LockedTexts.RepositoryReads | internal/lockfile/lockfile.go:461-474 | the repository of `name`, `name:tag`, `name@digest` and `name:tag@digest` is the name, a port in it included |
| LockedTexts.SplitReads | internal/lockfile/lockfile.go:506-537 | an immutable reference is exactly an untagged repository, one `@` and a digest |
| LockedTexts.HubNames | internal/lockfile/lockfile.go:476-490 | an official image is the same repository under each of its Docker Hub names |
| LockedTexts.OtherNames | internal/lockfile/lockfile.go:476-490 | below a user's name only the hub is folded away |
| LockedTexts.PrintedTimeIsAccepted | internal/lockfile/lockfile.go:354-357 | every second of the years 0 to 9999 is accepted as it is printed in UTC |
| LockedTexts.AcceptedTimeIsPrinted | internal/lockfile/lockfile.go:354-357 | and no other text is |
| LockFile.RepositoryLockEntry | internal/lockfile/lockfile.go:556-572 | an entry is made exactly when a digest matches, and passes every check of the parser |
| LockFile.LocalLockEntry | internal/lockfile/lockfile.go:574-579 | a local entry passes every check of the parser |
| TrustStore.ParseLoop | internal/projectconfig/projectconfig.go:540-622 | the parser loop equals the fold over lines, and its validation does not depend on map order |
| TrustStore.ValidateEntry | internal/projectconfig/projectconfig.go:645-668 | the checks on an entry decide that its section is named by its root, its digest is one, and its tools are sorted, distinct, valid and not reserved |
| TrustStore.MarshalStore | internal/projectconfig/projectconfig.go:624-643 | prints valid stores in ascending order and refuses the others |
| TrustStore.ParseMarshal | internal/projectconfig/projectconfig.go:540-643 | a printed valid store parses back to itself exactly when the scanner can take its lines |
| TrustStore.SavedLoadsBack | internal/projectconfig/projectconfig.go:526-538 | a saved store loads back exactly when it fits both size bounds |
| Descriptor.DecodeLoop | internal/aclaudit/descriptor.go:31-99 | on every byte string all reads are in bounds and the loops compute the decoding function |
| Descriptor.ReadAcesLoop | internal/aclaudit/descriptor.go:70-97 | the entry cursor never leaves the list |
| Descriptor.SidAtLoop | internal/aclaudit/descriptor.go:12-29 | reads an identifier or refuses it, in bounds for any offset |
| Descriptor.DecodeInvertsLayout | internal/aclaudit/descriptor.go:31-99 | decoding any layout of an owner and a list of entries, standard or other, or of no list, returns them ([MS-DTYP] sections 2.4.2.2, 2.4.4.1, 2.4.5 and 2.4.6) |
| Descriptor.OnlyLayoutsDecode | internal/aclaudit/descriptor.go:31-99 | whatever is accepted is such a layout, and decodes to its contents |
| Descriptor.DecodeEncode | internal/aclaudit/descriptor.go:31-99 | decoding inverts the compact encoding |
| AclAudit.Scan.Run | internal/aclaudit/model.go:219-391 | whatever the reads answer and whenever time runs out, a clean report means every ancestor of every target was read twice, unchanged, of the right kind and good, or lies under an optional target absent both times; in a world that stands still the report is clean exactly when the installation passes: it qualifies, no way to a target shows a fault, and no limit is exceeded |
| AclAudit.RequiredAreCovered | internal/aclaudit/model.go:231-295 | when no optional asset is required, every ancestor of the installation and of every required asset is covered |
| AclAudit.Classify | internal/aclaudit/model.go:149-210 | counts one finding for each foreign owner, missing list and entry that lets someone else write; the report stays clean exactly when there is none of these and every entry is of a known kind with known flags, rights and, where it applies, identity |
| AclAudit.RightsAreWrites | internal/aclaudit/model.go:183-208 | rights are reported exactly for masks that can write |
| AclAudit.UnknownBitsAreHigh | internal/aclaudit/model.go:164-168 | the unsupported bits of a mask are those from 9 to 15 and from 21 to 27 |
| AclAudit.SameSnapshot | internal/aclaudit/model.go:405-415 | the field-by-field comparison is equality |
| AclAudit.Report.Diagnostics | internal/aclaudit/model.go:90-120 | at most 24 lines: the sorted findings, all of them, then as many of the sorted gaps as fit, and an "ok" line exactly for a clean report on at least one object |
| AclAudit.Report.Candidate | internal/aclaudit/model.go:77-84 | counts every finding and records the first 23 |
| AclAudit.SoundAtEnd | internal/aclaudit/model.go:341-386 | the passes together account for every target |
| AclAudit.CleanPasses | internal/aclaudit/model.go:231-340 | what a clean first pass of a world that stands still has seen is all there is to see |
| PythonEnv.RepairKeepsValid | internal/pythonenv/bootstrap.py:59-67 | replacing one link keeps every remaining link good |
| PythonEnv.Environment.Repair | internal/pythonenv/bootstrap.py:59-67 | cut at any step the state validates again; completion removes exactly one link; raising restores everything |
| PythonEnv.Environment.RepairAll | internal/pythonenv/bootstrap.py:59-67 | the count of links falls with every replacement |
| PythonEnv.Environment.CollectLinks | internal/pythonenv/bootstrap.py:40-56 | accepts exactly the states in which every linked alias leads to the interpreter |
| PythonEnv.Environment.Prepare | internal/pythonenv/bootstrap.py:12-69 | refuses untouched, or leaves only repairs behind; completion leaves every formerly linked alias a copy; when every call works it completes exactly when every link is good and the interpreter can be run, and on an empty root |
| PythonEnv.Environment.Runs | internal/pythonenv/bootstrap.py:12-69 | any number of interrupted runs keeps the state valid and touches nothing else; one whole run is enough |
| PathMap.MapToolArgs | internal/pathmap/pathmap.go:67-126 | every path argument reads back to its host path, others are untouched, mounts are distinct and needed; fails exactly when a path cannot be mapped or an option lacks its argument |
| PathMap.Mapper.MapArg | internal/pathmap/pathmap.go:128-161 | one argument, with the mount list and its index kept in agreement |
| PathMap.WhichArePaths | internal/pathmap/pathmap.go:189-249 | which arguments are taken for paths: never a package pattern, always a drive path, one that starts with dots and a slash, and what an option forces; any other only with a backslash and if it is there |
| PathMap.UnmapMounted | internal/pathmap/pathmap.go:144-161 | a path placed under its mount reads back through the list |
| PathMap.ExternalMountRoot | internal/pathmap/pathmap.go:262-287 | finds the nearest usable directory, and fails only when there is none |
| PathMap.NormalizeLoop | internal/pathmap/pathmap.go:39-65 | the joining loop equals its specification |
| PathMap.JoinsPairs | internal/pathmap/pathmap.go:39-65 | a bare `opt=` before the first `--` is joined with the one argument after it, and nothing else is |
| PathMap.NormalizeKeepsText | internal/pathmap/pathmap.go:39-65 | joining loses and moves no character |
| PathMap.Decide | internal/pathmap/pathmap.go:76-121 | the flags of the argument loop |
| PathMap.ActionReads | internal/pathmap/pathmap.go:74-121 | before the first `--`: of adjacent path options every second is a value; what follows `opt=` is mapped for the first option that fits; the last argument is mapped where the tool says so |
| PathMap.AfterDashes | internal/pathmap/pathmap.go:86-89 | after a `--` that is no option's value nothing is forced any more |
| PathMap.WorkspaceRootFor | internal/pathmap/pathmap.go:289-302 | the workspace is one fixed directory or one segment below it |
| Demux.CopyMultiplexedOutput | internal/wsldocker/multiplex.go:28-78 | whatever the chunking, the bytes written are a prefix of what the input decodes to, all of it on nil, and the count is their number |
| Demux.CopyPayload | internal/wsldocker/multiplex.go:84-96 | copies the payload or reports exactly what was written |
| Demux.DecodeEncode | internal/wsldocker/multiplex.go:28-78 | decoding inverts framing for any list of frames |
| Demux.CleanMeansFrames | internal/wsldocker/multiplex.go:28-78 | an input is decoded without error only if it is a complete frame sequence |

## Left out

- Text: strings are sequences of Unicode scalar values. Invalid UTF-8, byte escapes from `\x80` up, and case folding of characters that do not fold or lower to ASCII are not modelled; which characters from U+0080 up `strconv` prints is a parameter.
- Digests: SHA-256 is taken to be injective, so a digest is the bytes; the truncated section names of the lockfile and the root names of the trust store are parameters.
- Error texts are reduced to reasons; line numbers are dropped. The editors' own malformed-header errors cannot occur after the parse in front of them and are not modelled.
- MutationLock.MutualExclusion: the lock is a state machine over the steps of `Acquire` and the release closure, because its point is their interleaving; the retry timing, the stale-lock message and the release on Ctrl-C, which runs while the protected function may still be running, are not part of it.
- AtomicIo.Directory.WriteFile: `Stat` is taken to fail only when the file is absent; directory syncing is not modelled.
- SelfUpdate.Host.Apply: planning, downloading and verifying the release, canonical paths of the two executables, and Windows pending-delete states are outside; the smoke test and each replacement are arbitrary within the stated trust: a damaging one may unlink or rebind its destination or write its inode in place.
- SelfUpdate.Host.DiscoverManagedShims: file names are taken in lower case, as Windows does not distinguish them; subdirectories, links and the comparison of sizes before hashes are not modelled.
- Aliases.Merge: the source copies the two tool maps entry by entry; here the union is one expression.
- Upgrade.AppendMissing: the built-in registry text is a parameter of which only its acceptance and the canonical spelling of its headers are used; the file write is the atomic writer above.
- LockFile.ParseRender: the URL parser and the canonical repository of the policy package are parameters, except that a local image ID has no repository. Image pulls, inspection and run-time authorisation are not modelled.
- TrustStore.ParseMarshal: path cleaning is a parameter; searching for overlays, reviewing and trusting them are not modelled.
- AclAudit.Scan.Run: progress snapshots and the bounded worker are not modelled; the second pass visits the objects in any order, of which the sorted one is an instance; mixed-case paths are folded beforehand; that an object is a file or a directory, as its target wants, is checked only where it is first reached, in the source and in the soundness predicate; the native redirection check is left out.
- Descriptor.DecodeInvertsLayout: of an entry that is neither an allowing nor a denying one kind, flags and mask are decoded, as in the source; the group and the audit list are skipped bytes.
- PythonEnv.Environment.Prepare: directories on the way of a link are real; the file lock is taken to exclude other runs; creating a fresh environment may do anything inside its root, and when every call works leaves copies and an executable interpreter.
- PathMap.MapToolArgs: host paths are volume and folded components; canonical forms and existence come from an oracle that does not change during one call. On other systems arguments pass through unchanged. Project-root search and volume names are not modelled.
- Demux.CopyMultiplexedOutput: the text of a system-error frame is not decoded.
- Installing and removing shims, the command-line front end, policy, image trust, containers, WSL and state archives are not modelled.
