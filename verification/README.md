# ayon-mocha core, modelled in Dafny

This project models the core of the AYON integration for Boris FX Mocha Pro.
It covers two parts.

**The metadata store.** Mocha Pro has no node to hold pipeline data, so the
host keeps one JSON block in the project notes, wrapped in the guard string
`AYON_CONTEXT::…::AYON_CONTEXT_END`. The model includes:

- the guard regular expression: its leftmost match (`re.search`) and its
  replace-every-match (`re.sub`), written out over strings (module `Guard`);
- reading and writing the block, including the placeholder a failed read
  appends (`Metadata`);
- the host's container and publish-instance accessors (`Host`);
- the creator that stores publish instances in that block (`Creator`).

**The publish plugins.** These are:

- the collectors for trackpoints, instance labels, the workfile and the
  Mocha executable paths (`CollectTrackpoints`, `CollectInstances`,
  `CollectWorkfile`, `CollectMochaPaths`);
- the two validators (`ValidateLayersAndExporters`,
  `ValidateTrackpointLayers`);
- the shape extractor (`ExportShapes`), with the extension pattern it reads
  off pre-2025 exporter labels (`ExtensionPattern`) and the exporter name
  tables (`ExporterMappings`);
- the library helpers `run_mocha` and `get_exporters` (`MochaLib`).

Supporting modules:

- `Wrappers`: `Option` and `Result`.
- `Errors`: the Python exception kinds the code raises.
- `Json`: decoded JSON values and Python's truthiness.
- `Text`: string helpers.
- `Paths`: the POSIX flavour of `PurePath` and of `os.path.split`/`splitext`.
- `ReTemplate`: how `re.sub` expands the backslash escapes of a replacement
  string.

Several things the host supplies are parameters of the operations that use
them:

- the project notes string;
- `json.dumps`/`json.loads` and the order in which a decoded dict's keys are
  iterated, taken together as a `Codec` with the laws the proofs need
  (`Json.Lawful`);
- `clique.assemble`;
- `sha256`;
- `get_product_name`;
- the exporters' `do_export`;
- `platform.system()` and `get_mocha_version()`.

Operations that can raise return a `Result`. Operations that rewrite the notes
return the notes as well, so a write that happens before an exception is kept.

## Model

| member | source | states |
|---|---|---|
| Guard.FindSuffix | client/ayon_mocha/api/pipeline.py:44-47 | the lazy `(?P<context>.*?)` closes at the first `::AYON_CONTEXT_END` at or after the given position, and there is none before it; `None` exactly when no suffix follows |
| Guard.FindMatch | client/ayon_mocha/api/pipeline.py:45-47 | the match `re.search` reports starts at the leftmost position that has a prefix with a suffix after it; `None` exactly when no position matches |
| Guard.SpanAt | client/ayon_mocha/api/pipeline.py:44-47 | the matched text of a match is the guard wrapped around its `context` group |
| Guard.Decompose | client/ayon_mocha/api/pipeline.py:265-269 | the notes are the text between matches with every match woven back in; there is no match exactly when there is a single piece |
| Guard.ReplaceAllWeaves | client/ayon_mocha/api/pipeline.py:265-269 | `re.sub` replaces every match by the replacement and keeps the text between matches unchanged |
| Guard.SuffixClosesClean | client/ayon_mocha/api/pipeline.py:44-47 | a payload that contains no suffix is closed by the suffix written after it |
| Guard.FindMatchExact | client/ayon_mocha/api/pipeline.py:45-47 | a match with no match before it is the one the search reports |
| Guard.SearchAppend | client/ayon_mocha/api/pipeline.py:211-235 | appending text, as `_create_ayon_data` does, does not move an existing leftmost match |
| Guard.NoPrefixNoMatch | client/ayon_mocha/api/pipeline.py:232-235 | notes without the guard prefix have no match |
| Guard.SearchWrappedFirst | client/ayon_mocha/api/pipeline.py:44-47 | a wrapped payload with no suffix inside, after text where no prefix starts, is the leftmost match, with that payload |
| Guard.SearchAfterReplace | client/ayon_mocha/api/pipeline.py:265-269 | after `re.sub` with a clean payload, the next search finds that payload at the old match's position |
| Json.Items | client/ayon_mocha/api/pipeline.py:180-186 | a `for` loop visits a list's entries, a string's characters as one-character strings, or a dict's keys in the codec's key order; any other value raises `TypeError` |
| Json.ItemsOfObject | client/ayon_mocha/api/pipeline.py:328-355 | looping over a decoded dict visits exactly its keys, as strings, one step per key |
| Json.ItemsEmptyIffFalsy | client/ayon_mocha/api/pipeline.py:328-355 | a value that can be looped over visits nothing exactly when it is falsy |
| Metadata.Read | client/ayon_mocha/api/pipeline.py:211-244 | `get_ayon_data` either leaves the notes alone, or appends the placeholder and returns `{}`; it appends exactly when there is no match or the match is not valid JSON |
| Metadata.Write | client/ayon_mocha/api/pipeline.py:246-269 | `update_ayon_data`, with the dumped block substituted literally, reads first, so the notes only grow before the substitution; it fails with `AttributeError` exactly when the decoded value is not a dict, and then keeps the notes the read left |
| Metadata.WriteAsWritten | client/ayon_mocha/api/pipeline.py:246-269 | `update_ayon_data` as written, with the dump passed through `re.sub`'s template parsing: on a dict block the only error it can add is `re.error` |
| Metadata.WriteAsWrittenAgrees | client/ayon_mocha/api/pipeline.py:262-269 | a dump without a backslash is substituted the same by both writes |
| Metadata.WrapCollapsesBackslash | client/ayon_mocha/api/pipeline.py:262-269 | the escape `\\` in a guarded dump expands to a single backslash, inside the unchanged guard |
| Metadata.WriteAsWrittenCollapsesBackslash | client/ayon_mocha/api/pipeline.py:262-269 | as written, a dump holding `\\` is stored with the backslash halved, so the next read sees a different payload, and drops the whole block when that payload is not valid JSON |
| Metadata.WrapRejectsUnicode | client/ayon_mocha/api/pipeline.py:262-269 | the escape `\u` in a guarded dump is a bad template escape |
| Metadata.WriteAsWrittenRejectsUnicode | client/ayon_mocha/api/pipeline.py:262-269 | as written, a dump holding `\u` (any non-ASCII character) makes the write raise `re.error` with the notes unchanged, where the literal write succeeds |
| ReTemplate.ExpandTemplate | client/ayon_mocha/api/pipeline.py:265-269 | a replacement without a backslash is used literally; expansion never lengthens the text, and only a backslash can make it fail, always with `re.error` |
| ReTemplate.ExpandPlainPrefix | client/ayon_mocha/api/pipeline.py:265-269 | text before the first backslash is copied as it is, in front of the expansion of the rest |
| ReTemplate.EscapedBackslashCollapses | client/ayon_mocha/api/pipeline.py:265-269 | `\\` between backslash-free text expands to one backslash |
| ReTemplate.UnicodeEscapeRaises | client/ayon_mocha/api/pipeline.py:265-269 | `\u` after backslash-free text raises `re.error` (`bad escape \u`), whatever follows |
| Metadata.ReadLeavesSpan | client/ayon_mocha/api/pipeline.py:211-244 | after any read the notes contain a match |
| Metadata.FreshReadIdempotent | client/ayon_mocha/api/pipeline.py:211-235 | notes with no guard get one placeholder, and the next read finds `{}` there and changes nothing |
| Metadata.InvalidJsonAppendsAgain | client/ayon_mocha/api/pipeline.py:236-242 | a leftmost match that is not valid JSON makes every read append another placeholder |
| Metadata.ReadDecodesLeftmost | client/ayon_mocha/api/pipeline.py:232-244 | a valid leftmost payload is returned and the notes are unchanged |
| Metadata.ReadAfterWrite | client/ayon_mocha/api/pipeline.py:246-269 | reading after a write returns the shallow merge: written keys take the new values and every other key keeps its old value |
| Metadata.WriteReplacesEverySpan | client/ayon_mocha/api/pipeline.py:262-269 | a write replaces every match in the notes, not only the first, with the same merged block |
| Metadata.WriteStored | client/ayon_mocha/api/pipeline.py:246-269 | writing to notes that hold a block stores the merge of that block with the data |
| Host.AsDict | client/ayon_mocha/api/pipeline.py:64-75 | `dataclasses.asdict` of a container has exactly the eight field keys |
| Host.StoreStored | client/ayon_mocha/api/pipeline.py:206-209 | setting one key and writing back stores the block with only that key changed |
| Host.GetContainers | client/ayon_mocha/api/pipeline.py:180-186 | `get_containers` reads once; a falsy block gives no containers; on stored notes with a non-empty block it yields what a loop visits in the stored `containers` value (`[]` when absent): a list's entries, a dict's keys or a string's characters, and a value that cannot be iterated raises `TypeError` |
| Host.OthersMembers | client/ayon_mocha/api/pipeline.py:197-204 | the containers kept are exactly those in another name/namespace slot |
| Host.OthersAppend | client/ayon_mocha/api/pipeline.py:197-204 | dropping by slot keeps the stored order |
| Host.AddContainerReplaces | client/ayon_mocha/api/pipeline.py:188-209 | adding a container stores the other slots' containers in order, then the new one; the slot ends up holding only the new container |
| Host.AddContainerNonDictRaises | client/ayon_mocha/api/pipeline.py:196-202 | a visited container that is not a dict has no `get`: adding raises `AttributeError` and leaves the notes as they were |
| Host.AddContainerAsWrittenFails | client/ayon_mocha/api/pipeline.py:197-202 | as written, with any container stored, the attribute lookup on a dict raises `AttributeError` and the notes stay as they were, where the keyed version succeeds |
| Host.GetContextData | client/ayon_mocha/api/pipeline.py:271-275 | `get_context_data` reads the notes once and fails exactly when the block is not a dict; on stored notes it returns the `context` entry, or `{}` when that is absent, and changes nothing |
| Host.UpdateContextData | client/ayon_mocha/api/pipeline.py:277-292 | empty data is ignored and the notes are not touched |
| Host.UpdateContextStores | client/ayon_mocha/api/pipeline.py:277-292 | non-empty data replaces the `context` entry and keeps every other key |
| Host.GetPublishInstances | client/ayon_mocha/api/pipeline.py:295-298 | it fails exactly when the block is not a dict; on stored notes it returns the stored list, or `[]` when absent, and changes nothing |
| Host.AddPublishInstanceAppends | client/ayon_mocha/api/pipeline.py:300-312 | adding an instance appends it to the stored list and keeps everything else |
| Host.FirstWithId | client/ayon_mocha/api/pipeline.py:328-331 | finds the first entry with the id, with none before it |
| Host.ReplaceFirst | client/ayon_mocha/api/pipeline.py:326-333 | when every entry has an id, only the first entry with the id is replaced; without one the list is unchanged |
| Host.UpdatePublishInstanceReplacesFirst | client/ayon_mocha/api/pipeline.py:314-334 | on stored notes, the update replaces the first matching entry, or rewrites the same list when none matches |
| Host.FilterBy | client/ayon_mocha/api/pipeline.py:352-356 | the comprehension succeeds exactly when every entry is a dict with the key, and keeps exactly the entries whose value differs |
| Host.FilterByAppend | client/ayon_mocha/api/pipeline.py:352-356 | filtering keeps the stored order |
| Host.RemoveCreateInstanceDrops | client/ayon_mocha/api/pipeline.py:343-359 | removing drops every entry with the id and nothing else |
| Host.RemoveUnkeyedRaises | client/ayon_mocha/api/pipeline.py:352-356 | an entry without `instance_id` raises and leaves the notes unchanged |
| Host.WriteCreateInstancesReplaces | client/ayon_mocha/api/pipeline.py:336-341 | writing the instances replaces the stored list and keeps every other key |
| Host.EmptyDictInstances | client/ayon_mocha/api/pipeline.py:314-359 | a stored empty dict of instances is looped over like an empty list: updating stores the dict back unchanged, and removing stores `[]` |
| Creator.CreateAppends | client/ayon_mocha/api/plugin.py:17-43 | `create` appends exactly the new instance's stored data |
| Creator.CollectInstances | client/ayon_mocha/api/plugin.py:45-54 | collecting reads the notes once, which may append the placeholder, and writes nothing else |
| Creator.CollectInstancesPicksOwn | client/ayon_mocha/api/plugin.py:45-54 | on stored notes, collecting changes nothing and returns the in-order filter of the stored entries on `creator_identifier`: exactly the entries that carry this creator's identifier, in stored order (the filter distributes over concatenation, `Host.FilterByAppend`) |
| Creator.EmptyDictCollectAndUpdate | client/ayon_mocha/api/plugin.py:45-80 | a stored empty dict of instances collects nothing, and the first update raises `AttributeError` at `append`, with the notes unchanged |
| Creator.IdKey | client/ayon_mocha/api/plugin.py:65-69 | the index key of an entry: a non-empty id string is kept, a falsy id is skipped, and a truthy list or dict raises as an unhashable key |
| Creator.IdKeys | client/ayon_mocha/api/plugin.py:65-69 | the id index succeeds only when every entry has `instance_id` |
| Creator.IdKeysOk | client/ayon_mocha/api/plugin.py:65-69 | only a missing or unhashable id makes the index fail |
| Creator.LastPos | client/ayon_mocha/api/plugin.py:65-69 | when ids repeat, the dict comprehension keeps the last entry with the id |
| Creator.ApplySpec | client/ayon_mocha/api/plugin.py:71-79 | each known entry takes the new values of the last update aimed at it; unknown updates are appended in order |
| Creator.UpdateInstancesWrites | client/ayon_mocha/api/plugin.py:56-80 | `update_instances` writes the rebuilt list once and keeps the rest of the block |
| Creator.UpdateKnownInPlace | client/ayon_mocha/api/plugin.py:71-79 | an update for a stored id replaces that entry in place, as the key removal and `update` leave exactly the new values |
| Creator.LastForIsLast | client/ayon_mocha/api/plugin.py:71-79 | when several updates aim at one entry, the last one decides |
| Creator.ApplyUnknown | client/ayon_mocha/api/plugin.py:71-76 | updates for unknown ids are appended in `update_list` order |
| Creator.UpdateUnknownAppends | client/ayon_mocha/api/plugin.py:71-76 | when no update's id is stored, the list becomes the stored list followed by the new values |
| Creator.WithoutIds | client/ayon_mocha/api/plugin.py:82-92 | the entries left after removing several ids are exactly those carrying none of them |
| Creator.RemoveInstancesDrops | client/ayon_mocha/api/plugin.py:82-92 | `remove_instances` removes each id in turn and stores the list without any of them |
| ExtensionPattern.WordRun | client/ayon_mocha/plugins/publish/export_shapes.py:23 | the greedy `\w+` takes the maximal run of word characters |
| ExtensionPattern.LastMarker | client/ayon_mocha/plugins/publish/export_shapes.py:23 | the greedy `.+` makes the last `(*.ext)` on a line the one matched, and it needs at least one character before it |
| ExtensionPattern.ExtAt | client/ayon_mocha/plugins/publish/export_shapes.py:23 | the `ext` group is a non-empty run of word characters |
| ExtensionPattern.ExtensionSound | client/ayon_mocha/plugins/publish/export_shapes.py:289-302 | any extension found is the `ext` of a marker in the label |
| ExtensionPattern.ExtensionFound | client/ayon_mocha/plugins/publish/export_shapes.py:301-302 | `_get_extension` finds an extension exactly when some marker has a character before it on its own line |
| ExtensionPattern.NoStarNoExtension | client/ayon_mocha/plugins/publish/export_shapes.py:301-302 | a label without `*` gives no extension |
| ExtensionPattern.LegacyLabelExtension | client/ayon_mocha/plugins/publish/export_shapes.py:289-302 | a one-line name followed by ` (*.ext)` yields `ext`, whatever else the name holds |
| ExtensionPattern.LegacyLastMarker | client/ayon_mocha/plugins/publish/export_shapes.py:23 | no marker starts after the closing one of such a label |
| ExporterMappings.MappingKeys | client/ayon_mocha/api/mocha_exporter_mappings.py:141-150 | `EXPORTER_MAPPING` has the kinds `shape` and `tracking`, each with exactly the versions `2024.5` and `2025` |
| ExporterMappings.Lookup | client/ayon_mocha/plugins/publish/export_shapes.py:322-323 | `mapping.get(name, …)` finds a row with that label, and finds none exactly when no row has it |
| ExporterMappings.ExtensionsAreWords | client/ayon_mocha/api/mocha_exporter_mappings.py:11-78 | every pre-2025 label ends in an extension made of word characters |
| ExporterMappings.LegacyLabelsYieldExtension | client/ayon_mocha/api/mocha_exporter_mappings.py:11-78 | every single-line pre-2025 label gives its own extension to the pattern |
| MochaLib.Unknown | client/ayon_mocha/api/lib.py:108-113 | the keywords reported are exactly those outside `available_args` |
| MochaLib.NoSuchParametersDropsPrefix | client/ayon_mocha/api/lib.py:111-114 | as written, one unknown keyword gives the bare name as the message, without the prefix |
| MochaLib.NoSuchParameters | client/ayon_mocha/api/lib.py:111-114 | the intended message starts with `No such parameters: ` |
| MochaLib.Options | client/ayon_mocha/api/lib.py:118-120 | each keyword becomes `--<option>` followed by its value, in call order |
| MochaLib.RunMocha | client/ayon_mocha/api/lib.py:67-124 | a missing executable does nothing; otherwise it raises `ValueError` exactly when a keyword is unknown, with the corrected `No such parameters: ` message of the second Findings row, or builds the command from the executable, the option pairs and the footage path when one is given |
| MochaLib.LexLeTotal | client/ayon_mocha/api/lib.py:176 | string order, as `sorted` uses it, compares any two labels |
| MochaLib.LexLeTransitive | client/ayon_mocha/api/lib.py:176 | string order is transitive |
| MochaLib.SortByLabel | client/ayon_mocha/api/lib.py:176-177 | sorting the registry is a permutation of it, in label order |
| MochaLib.InsertSorted | client/ayon_mocha/api/lib.py:176-177 | inserting into a sorted registry keeps it sorted |
| MochaLib.GetExporters | client/ayon_mocha/api/lib.py:169-178 | one `ExporterInfo` per registered exporter, in label order; its id is the digest of its label and it keeps its own exporter |
| ExportShapes.VersionText | client/ayon_mocha/plugins/publish/export_shapes.py:228 | a non-empty Mocha version is used as it is, and the version text is never empty, because a missing one falls back to `"2024"` |
| ExportShapes.ShapeTable | client/ayon_mocha/plugins/publish/export_shapes.py:316-320 | `2025` picks its own shape table; any other version falls back to the 2024.5 table |
| ExportShapes.RepresentationName | client/ayon_mocha/plugins/publish/export_shapes.py:305-323 | a label in the table maps to that row's name, and any other label maps to itself |
| ExportShapes.DefaultVersionUsesLegacyTable | client/ayon_mocha/plugins/publish/export_shapes.py:316-320 | with no version, or an empty one, names come from the 2024.5 table |
| ExportShapes.TransferOfFileName | client/ayon_mocha/plugins/publish/export_shapes.py:280-287 | the transfer for a plain file name copies `staging/name` to `publishDir/name` |
| ExportShapes.AddAllAppends | client/ayon_mocha/plugins/publish/export_shapes.py:105-107 | every remainder is added to `transfers`, in order |
| ExportShapes.AddAllRaises | client/ayon_mocha/plugins/publish/export_shapes.py:285-286 | a missing `publishDir` or `transfers` raises `KeyError` at the first remainder, before anything is appended |
| ExportShapes.ManifestFor | client/ayon_mocha/plugins/publish/export_shapes.py:157-180 | the manifest holds the file names back to back, since `writelines` adds no separator |
| ExportShapes.ProcessOutput | client/ayon_mocha/plugins/publish/export_shapes.py:86-154 | one output gives at most one representation, and an output that raises writes no manifest |
| ExportShapes.ProcessOutputsAppend | client/ayon_mocha/plugins/publish/export_shapes.py:83-155 | the loop processes the outputs in order and threads `transfers` through them; the first error ends it |
| ExportShapes.AtMostOnePerOutput | client/ayon_mocha/plugins/publish/export_shapes.py:86-155 | there are never more representations than outputs |
| ExportShapes.EmptyOutputYieldsNothing | client/ayon_mocha/plugins/publish/export_shapes.py:94-154 | an output without files gives no representation, no transfer and no manifest |
| ExportShapes.OnlyCollections | client/ayon_mocha/plugins/publish/export_shapes.py:139-154 | sequences only: one sequence becomes `files`, and several raise `KnownPublishError` |
| ExportShapes.OneRemainder | client/ayon_mocha/plugins/publish/export_shapes.py:130-138 | a single non-sequence file is the representation's `files`, and nothing is transferred |
| ExportShapes.SeveralRemainders | client/ayon_mocha/plugins/publish/export_shapes.py:115-129 | several single files are all transferred, and the representation is their manifest |
| ExportShapes.MixedOutput | client/ayon_mocha/plugins/publish/export_shapes.py:95-114 | one sequence plus single files: the sequence is `files` and every single file is transferred; several sequences raise |
| ExportShapes.MixedOutputAsWritten | client/ayon_mocha/plugins/publish/export_shapes.py:97 | as written, sequences mixed with single files always raise `TypeError`, even with one sequence |
| ExportShapes.ViewsToExport | client/ayon_mocha/plugins/publish/export_shapes.py:211-216 | every view of the project is exported, since each name is among the names |
| ExportShapes.MajorVersion | client/ayon_mocha/plugins/publish/export_shapes.py:235 | reading the major version succeeds exactly when the text before the first dot is a decimal number |
| ExportShapes.MajorVersionOfRelease | client/ayon_mocha/plugins/publish/export_shapes.py:235 | the major version of a printed `major.minor` is the major number |
| ExportShapes.FileName | client/ayon_mocha/plugins/publish/export_shapes.py:234-241 | from 2025 the file is `<product>_<id[:8]>`; before 2025 the label's extension is appended, and a label without one raises `KnownPublishError` |
| ExportShapes.LegacyFileName | client/ayon_mocha/plugins/publish/export_shapes.py:234-241 | before 2025, a label `<name> (*.<ext>)` names the file `<product>_<id[:8]>.<ext>` |
| ExportShapes.StarlessLabelNeedsNewMocha | client/ayon_mocha/plugins/publish/export_shapes.py:235-240 | before 2025, a label without `*` cannot be exported |
| ExportShapes.SuffixText | client/ayon_mocha/plugins/publish/export_shapes.py:268 | the reported extension contains no dot |
| ExportShapes.FileNames | client/ayon_mocha/plugins/publish/export_shapes.py:261-265 | the reported files are the names of the written paths, in order |
| ExportShapes.ExportOne | client/ayon_mocha/plugins/publish/export_shapes.py:219-276 | an empty label raises; a successful export reports the label, `id[:8]` and the staging directory, with at least one file |
| ExportShapes.ExportTarget | client/ayon_mocha/plugins/publish/export_shapes.py:243-276 | the exporter writes to the staging directory joined with the file name; an empty result raises `Export failed`, and otherwise the files and extension come from what it wrote |
| ExportShapes.ExportAll | client/ayon_mocha/plugins/publish/export_shapes.py:218-278 | `export` gives one output per exporter, in order, or the error of the first exporter that fails |
| Paths.ParseAsPosix | client/ayon_mocha/plugins/publish/export_shapes.py:243-253 | a path printed with `as_posix` reads back as the same path |
| Paths.NameParentDiv | client/ayon_mocha/plugins/publish/collect_mocha_paths.py:30-46 | `p / n` has name `n` and parent `p` |
| Paths.SplitPath | client/ayon_mocha/plugins/publish/collect_workfile.py:21 | `os.path.split` gives a tail without `/` that ends the path, and a head taken from what comes before it |
| Paths.SplitExtParts | client/ayon_mocha/plugins/publish/collect_workfile.py:22 | `os.path.splitext` splits the name into root and extension, which join back to it |
| Text.CapitalizeIdempotent | client/ayon_mocha/plugins/publish/collect_trackpoints.py:36 | capitalising twice is capitalising once |
| Text.ReplaceCharRemoves | client/ayon_mocha/plugins/publish/collect_trackpoints.py:35 | `replace(" ", "_")` leaves no space and keeps every other character |
| Text.ParseNatToString | client/ayon_mocha/plugins/publish/export_shapes.py:235 | `int()` reads back the decimal text of a number |
| CollectTrackpoints.PyIndex | client/ayon_mocha/plugins/publish/collect_trackpoints.py:68-71 | a list index works exactly for `-len <= i < len`, and anything else raises `IndexError` |
| CollectTrackpoints.PyIndexBothWays | client/ayon_mocha/plugins/publish/collect_trackpoints.py:68-71 | the index from the front and the negative index from the back reach the same layer |
| CollectTrackpoints.PickLayers | client/ayon_mocha/plugins/publish/collect_trackpoints.py:67-71 | the selected layers are the listed indices in listed order; it succeeds exactly when every index is in range |
| CollectTrackpoints.SelectLayers | client/ayon_mocha/plugins/publish/collect_trackpoints.py:67-76 | `selected` picks by index, `all` takes every layer, and any other mode raises `Invalid layer mode: <mode>` |
| CollectTrackpoints.SelectedLayersBelong | client/ayon_mocha/plugins/publish/collect_trackpoints.py:67-76 | every chosen layer is a layer of the project |
| CollectTrackpoints.SelectExporters | client/ayon_mocha/plugins/publish/collect_trackpoints.py:52-56 | the exporters used are exactly the registered exporters whose id was chosen |
| CollectTrackpoints.SelectExportersAppend | client/ayon_mocha/plugins/publish/collect_trackpoints.py:52-56 | the chosen exporters keep the registry order |
| CollectTrackpoints.ExporterOptions | client/ayon_mocha/plugins/publish/collect_trackpoints.py:59-63 | `exporter_options` has exactly the three switches, copied from the creator attributes |
| CollectTrackpoints.ComposeVariant | client/ayon_mocha/plugins/publish/collect_trackpoints.py:35-36 | the variant is the layer name with each space turned into `_`, character by character, followed by the capitalised variant |
| CollectTrackpoints.ComposeVariantKeepsPlainName | client/ayon_mocha/plugins/publish/collect_trackpoints.py:35-36 | a layer name without spaces is kept as is, and composing an already capitalised variant changes nothing |
| CollectTrackpoints.ForLayer | client/ayon_mocha/plugins/publish/collect_trackpoints.py:78-109 | the instance for a layer copies the data, then sets its name, label, product name, layer and frame range |
| CollectTrackpoints.WithExporters | client/ayon_mocha/plugins/publish/collect_trackpoints.py:58-63 | the data gains `use_exporters` and `exporter_options`, and every other key is unchanged |
| CollectTrackpoints.Process | client/ayon_mocha/plugins/publish/collect_trackpoints.py:47-101 | the context loses the instance and gains one instance per chosen layer, in order; a layer-mode error is passed on, and with layers to make it fails exactly when `productType` or a text `variant` is missing |
| CollectTrackpoints.NoLayersOnlyRemoves | client/ayon_mocha/plugins/publish/collect_trackpoints.py:78-101 | with no layer chosen, the instance is only removed |
| CollectTrackpoints.MissingProductTypeRaises | client/ayon_mocha/plugins/publish/collect_trackpoints.py:93-98 | with a layer to make and no `productType`, the result is `KeyError` |
| CollectInstances.SetDefaultZero | client/ayon_mocha/plugins/publish/collect_instances.py:33-34 | `setdefault(key, 0)` adds the key with 0 when it is absent and leaves every present key alone |
| CollectInstances.Minus | client/ayon_mocha/plugins/publish/collect_instances.py:37-42 | subtraction succeeds exactly on two numbers, and the result plus the handle is the frame |
| CollectInstances.WithHandles | client/ayon_mocha/plugins/publish/collect_instances.py:31-47 | with a frame range, it succeeds exactly when both subtractions do, and fails only with `TypeError` |
| CollectInstances.Process | client/ayon_mocha/plugins/publish/collect_instances.py:19-49 | a missing `folderPath` raises `KeyError`; the label is `<name> (<folderPath>)`, with `  [start-end]` of the handle frames when there is a frame range; handles default to 0; no other key changes |
| CollectInstances.ProcessIdempotent | client/ayon_mocha/plugins/publish/collect_instances.py:19-49 | running the collector again on its own result changes nothing |
| CollectWorkfile.FirstMissing | client/ayon_mocha/plugins/publish/collect_workfile.py:26-29 | reports the first frame key missing from the context, and reports none exactly when all are present |
| CollectWorkfile.BareExtPlain | client/ayon_mocha/plugins/publish/collect_workfile.py:22-32 | `ext.lstrip(".")` contains no dot and no slash |
| CollectWorkfile.BareExtEndsName | client/ayon_mocha/plugins/publish/collect_workfile.py:22-32 | a non-empty extension ends the file name, after a dot |
| CollectWorkfile.RepresentationOf | client/ayon_mocha/plugins/publish/collect_workfile.py:21-35 | `files` is the last path component and `stagingDir` comes from the path before it; `name` and `ext` are both the dotless extension |
| CollectWorkfile.Process | client/ayon_mocha/plugins/publish/collect_workfile.py:17-37 | a missing `currentFile` or frame key raises `KeyError` naming the first missing key; on success the members, frames, handles and representation come from the context |
| CollectWorkfile.MissingFrameStartReported | client/ayon_mocha/plugins/publish/collect_workfile.py:26 | a missing `frameStart` is the key reported, whatever else is missing |
| CollectMochaPaths.Process | client/ayon_mocha/plugins/publish/collect_mocha_paths.py:28-52 | the executable is always stored; it succeeds exactly on Windows, macOS or Linux in any letter case, and otherwise raises `Unsupported platform: <name>` before storing the other two paths |
| CollectMochaPaths.LowerIdempotent | client/ayon_mocha/plugins/publish/collect_mocha_paths.py:32 | lower-casing twice is lower-casing once |
| CollectMochaPaths.PlatformCaseInsensitive | client/ayon_mocha/plugins/publish/collect_mocha_paths.py:32-49 | the platform name matches in any letter case |
| CollectMochaPaths.WindowsLayout | client/ayon_mocha/plugins/publish/collect_mocha_paths.py:32-36 | on Windows, `python.exe` and `mochaexport.py` sit in `python` under the install directory |
| CollectMochaPaths.DarwinLayout | client/ayon_mocha/plugins/publish/collect_mocha_paths.py:37-41 | on macOS, `python3` and `mochaexport.py` sit directly in the install directory |
| CollectMochaPaths.LinuxInterpreter | client/ayon_mocha/plugins/publish/collect_mocha_paths.py:42-44 | on Linux, `python3` sits in `python/bin` under the install directory |
| CollectMochaPaths.LinuxScript | client/ayon_mocha/plugins/publish/collect_mocha_paths.py:45-46 | on Linux, `mochaexport.py` sits in `python` under the install directory |
| ValidateLayersAndExporters.Process | client/ayon_mocha/plugins/publish/validate_layers_and_exporters.py:31-43 | it passes exactly when both `layer` and `use_exporters` are truthy; the layer is checked first, and each error names the instance |
| ValidateLayersAndExporters.LayerCheckedFirst | client/ayon_mocha/plugins/publish/validate_layers_and_exporters.py:31-36 | with no layer, the layer error is raised, whatever the exporters are |
| ValidateLayersAndExporters.EmptyExportersLikeMissing | client/ayon_mocha/plugins/publish/validate_layers_and_exporters.py:38-43 | an empty exporter list fails just like a missing one |
| ValidateTrackpointLayers.Process | client/ayon_mocha/plugins/publish/validate_trackpoints_layers.py:26-40 | it passes exactly when the layer is truthy and the exporter list is non-empty; an absent layer raises `KeyError` while the message is built, and an unsized exporter value raises `TypeError` |
| ValidateTrackpointLayers.SeveralExportersPass | client/ayon_mocha/plugins/publish/validate_trackpoints_layers.py:34-40 | two or more exporters pass, although the error message says multiple exporters are not supported |
| ValidateTrackpointLayers.ListCheckIsTruthiness | client/ayon_mocha/plugins/publish/validate_trackpoints_layers.py:34 | for a list, the `len(...) == 0` test agrees with the truthiness test of the other validator |

## Left out

- Host I/O is out of scope: Qt menus and the main window, `install`, workfile save and open, `subprocess.Popen`, writing files, `copy_placeholder_clip` and `create_empy_project`. The model keeps the data these steps compute.
- `json.dumps`, `json.loads`, the key order of a decoded dict, `clique.assemble`, `sha256`, `get_product_name`, `do_export`, `platform.system()` and `get_mocha_version()` are parameters. Only the laws the proofs use are stated about them.
- `ExportShape.process` itself is not modelled as one function. It only reads context keys, runs `export` and the output processing (both modelled), and extends `representations`.
- `ExportShapes.ExportOne`: the message for an empty label is stated only as a `KnownPublishError`. Its text embeds the empty label and says nothing more.
- `ExportShapes.MajorVersion`: `int()` is modelled as accepting only ASCII digits. Signs, surrounding whitespace and underscores are not accepted.
- `ExportShapes.ShapeTable`: a version outside the mapping, such as `2025.1`, falls back to the 2024.5 table, as the `KeyError` handler does. The model keys the table on the exact version text.
- `ExporterMappings.LegacyLabelsYieldExtension`: this is conditional on the label name being a single line. The solver cannot check character facts about every table literal.
- Two character facts about the tables are not proved, for the same reason: that every representation name is non-empty and free of spaces and special characters, and that no 2025 label contains `(*.`. The tables are transcribed, and `ExportShapes.FileName` does not depend on these facts, because it handles a label without an extension as an error.
- `MochaLib.RunMocha`: `current_keys - available_keys` is a set, so the order of the unknown names in the message is not determined. The model reports them in call order.
- MochaLib.RunMocha: it raises the corrected message, `No such parameters: ` followed by the names, not the message the code builds. The code as written is `MochaLib.NoSuchParametersDropsPrefix`; see "## Findings".
- `MochaLib.RunMocha`: `PYTHONPATH` and `os.name`, which only affect how the process is launched, are not modelled.
- `Metadata.Read`: the notes of the current project are a parameter, not global state.
- `CollectTrackpoints.Process`: the creator attributes are a typed record, so a missing attribute (a `KeyError` in the source) is not modelled.
- CollectTrackpoints.Process: writes made before an exception are not returned with it. `use_exporters` and `exporter_options` are stored on the instance (lines 58-63) before the layer-mode error or an `IndexError` (lines 67-76). A missing `productType` or `variant` raises at lines 93-97, after `create_instance` has already added the first layer's instance, with its copied data, label and name, to the context (lines 79-92). The model returns only the error.
- CollectTrackpoints.Process: `str.replace`, `str.capitalize` and the layer name are modelled on ASCII letters only. Python's `capitalize` also changes non-ASCII letters, as in the variant `élan`.
- CollectTrackpoints.ComposeVariant: `capitalize` upper-cases and lower-cases ASCII letters only; Python's changes every cased Unicode letter.
- `CollectTrackpoints.Process`: `deepcopy` of each value is modelled as a plain copy, because the model's values are immutable.
- `CollectTrackpoints.Process`: `context.remove(instance)` is modelled by the instance's position.
- `CollectTrackpoints.ForLayer`: Mocha layers are records of a name and the two frames that `in_point()` and `out_point()` return.
- CollectInstances.Process: the `handleStart`/`handleEnd` defaults written at lines 33-34 are not returned when the subtraction at lines 37-42 then raises `TypeError`. The model returns only the error.
- CollectInstances.WithHandles: the same. On `TypeError` the handle defaults already set on the instance are not part of the result.
- `CollectInstances.Process`: the folder path is required to have a text form, because `str()` of arbitrary objects is not modelled.
- `CollectInstances.Process`: frames are integers. Floating-point frames and `int()` truncation are not modelled.
- `CollectInstances.Process`: the instance node is given as its label, or none.
- `ValidateLayersAndExporters.Process` and `ValidateTrackpointLayers.Process`: the error descriptions (`inspect.cleandoc` text) are display text and are not modelled.
- `CollectMochaPaths.Process`: `get_mocha_exec_name` is a parameter, and logging is left out.
- `Creator.CreateAppends` and `Creator.CollectInstances`: building `CreatedInstance` objects and adding or removing them in the create context belong to the AYON core, so the model keeps only the data stored in or read from the notes. `data_to_store()` is a parameter.
- Metadata.ReadAfterWrite: the merged block must dump to text without `::AYON_CONTEXT_END` (`Metadata.Safe`). Otherwise the lazy match would end inside the stored text on the next read; that case is not characterised. The same condition stands on Metadata.WriteStored, Host.StoreStored, Host.AddContainerReplaces, Host.AddContainerAsWrittenFails, Host.UpdateContextStores, Host.AddPublishInstanceAppends, Host.UpdatePublishInstanceReplacesFirst, Host.RemoveCreateInstanceDrops, Host.WriteCreateInstancesReplaces, Host.EmptyDictInstances, Creator.CreateAppends, Creator.UpdateInstancesWrites and Creator.RemoveInstancesDrops, each listed below.
- Metadata.WriteStored: requires the merged dump to be free of `::AYON_CONTEXT_END`, as for Metadata.ReadAfterWrite.
- Host.StoreStored: requires the new block's dump to be free of `::AYON_CONTEXT_END`.
- Host.AddContainerReplaces: requires the new block's dump to be free of `::AYON_CONTEXT_END`, and every stored container to be a dict; a non-dict entry is `Host.AddContainerNonDictRaises`.
- Host.AddContainerAsWrittenFails: requires the same as Host.AddContainerReplaces, so that the keyed version is known to succeed.
- Host.UpdateContextStores: requires the new block's dump to be free of `::AYON_CONTEXT_END`.
- Host.AddPublishInstanceAppends: requires the new block's dump to be free of `::AYON_CONTEXT_END`, and the stored instances to be a list; on a dict or string `append` raises `AttributeError`.
- Host.UpdatePublishInstanceReplacesFirst: requires the new block's dump to be free of `::AYON_CONTEXT_END`, and the stored instances to be a list of dicts with `instance_id`; the empty dict is `Host.EmptyDictInstances`.
- Host.RemoveCreateInstanceDrops: requires the new block's dump to be free of `::AYON_CONTEXT_END`; an unkeyed entry is `Host.RemoveUnkeyedRaises`.
- Host.WriteCreateInstancesReplaces: requires the new block's dump to be free of `::AYON_CONTEXT_END`.
- Host.EmptyDictInstances: requires both new blocks' dumps to be free of `::AYON_CONTEXT_END`.
- Creator.CreateAppends: requires the new block's dump to be free of `::AYON_CONTEXT_END`.
- Creator.UpdateInstancesWrites: requires every list written along the way to dump without `::AYON_CONTEXT_END`, and the stored instances to be a list.
- Creator.RemoveInstancesDrops: requires every list written along the way to dump without `::AYON_CONTEXT_END`.
- Creator.CollectInstancesPicksOwn: covers a stored list; a stored dict or string is iterated by keys or characters, and the empty dict is `Creator.EmptyDictCollectAndUpdate`.
- ReTemplate.ExpandTemplate: group references (`\g<…>`, `\1`, octal escapes) are an error in the model instead of being expanded. A dump from `json.dumps` only has a backslash before `"`, `\`, `/`, `b`, `f`, `n`, `r`, `t` or `u`, so it never contains one.
- Paths.SplitPath: models `posixpath.split` only. On Windows `os.path` is `ntpath`, which also splits at `\` and keeps a drive such as `C:`.
- CollectWorkfile.RepresentationOf: the file name and staging directory come from the POSIX split. A Windows path such as `C:\p\shot.mocha` is split differently by `ntpath`.
- CollectWorkfile.Process: the same POSIX split as CollectWorkfile.RepresentationOf.
- CollectMochaPaths.Process: the paths are joined as `PurePosixPath`. On Windows `Path` is a `WindowsPath`, which also treats `\` as a separator, as in `C:\Mocha\bin\mochapro.exe`.
- ExportShapes.TransferOfFileName: the joined paths are POSIX paths. The `WindowsPath` join and its `\` separator are not modelled.
- ExtensionPattern.WordRun: `\w` is modelled as ASCII letters, digits and `_`. Python's `re` also treats non-ASCII letters and digits as word characters, as in a label `X (*.txt) Y (*.dé)`.
- ExtensionPattern.LastMarker: uses the ASCII `\w` of ExtensionPattern.WordRun.
- ExtensionPattern.ExtensionFound: uses the ASCII `\w` of ExtensionPattern.WordRun. A marker whose extension has a non-ASCII letter is not found by the model where Python finds it.
- Json.Items: iterating a decoded dict visits its keys in the order of the stored text. The model takes that order from the codec and states only that each key is visited once.
- Loaders, creators other than the shared base, settings, the addon class and `workio` are not part of this model.

## Findings

| source | as written | input that shows it | evidently intended | confidence | as-written member | corrected member |
|---|---|---|---|---|---|---|
| client/ayon_mocha/plugins/publish/export_shapes.py:97 | `if cols > 1:` compares the list of collections with an integer | an output that `clique.assemble` splits into one sequence plus one single file: Python 3 raises `TypeError` | `len(cols) > 1`, as on line 141, so one sequence plus single files yields a representation | not executed | ExportShapes.MixedOutputAsWritten | ExportShapes.MixedOutput |
| client/ayon_mocha/api/lib.py:111-114 | `"No such parameters: " ", ".join(...)` joins with the adjacent literals concatenated, so the prefix becomes part of the separator | `run_mocha(foo=1)` on an installed Mocha: the message is `foo` | the prefix followed by the unknown names joined with `, ` | not executed | MochaLib.NoSuchParametersDropsPrefix | MochaLib.NoSuchParameters |
| client/ayon_mocha/api/pipeline.py:200-201 | `_container.name` and `.namespace` are read as attributes of the decoded container entries, which are dicts | `add_container` when the notes already hold one container dict: `AttributeError`, and nothing is stored | compare `_container.get("name")` and `_container.get("namespace")`, replacing the container in that slot; a stored entry that is not a dict still raises `AttributeError` (`Host.AddContainerNonDictRaises`) | not executed | Host.AddContainerAsWrittenFails | Host.AddContainerReplaces |
| client/ayon_mocha/api/pipeline.py:265-269 | the guarded `json.dumps` text is passed to `re.sub` as a replacement string, whose backslash escapes are expanded | storing a path `C:\proj`: the dump holds `\\`, which is stored as one backslash, so the next read finds the invalid JSON `"C:\proj"` and drops the whole block; storing `café`: the dump holds `\u00e9`, and `re.sub` raises `re.error` | the dumped text substituted literally (a replacement function, or the dump with its backslashes escaped), so the next read returns the merge | not executed | Metadata.WriteAsWrittenCollapsesBackslash | Metadata.ReadAfterWrite |
