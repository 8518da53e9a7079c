# FixProjectJsonWarnings: the project.json migration, modelled in Dafny

FixProjectJsonWarnings rewrites the settings of a legacy `project.json` file
into the form newer tooling expects. It parses each document into an
ordered JSON object tree and applies a fixed pipeline of rules, each of which
changes the root object in place:

1. `compilationOptions` is renamed to `buildOptions`, at the root and inside
   every entry of `frameworks`.
2. `repository`, `tags` and `licenseUrl`, in that order, move into
   `packOptions`.
3. `packInclude` becomes `packOptions.files.mappings`.
4. `content`, `contentExclude` and `contentFiles` are copied to
   `publishOptions.{include,exclude,includeFiles}` and to
   `buildOptions.copyToOutput.{include,exclude,includeFiles}`, then removed.
5. `resource` and `namedResource` become `buildOptions.embed.include` and
   `buildOptions.embed.mappings`.

A missing destination object is created by "lookup or create". A top-level
object (`packOptions`, `publishOptions`, `buildOptions`) is inserted right
after the property being moved. A nested object (`files`, `copyToOutput`,
`embed`) has no such anchor and is appended last in its parent.

The model has three layers:

- **Values** (`json.dfy`, `ordered_object.dfy`). A JSON tree is a datatype.
  An object is a sequence of named properties. The library calls the
  migration uses are functions on that sequence:
  - look up a name;
  - insert a property after another one;
  - remove a property;
  - assign `obj[name] = v`.

  The invariant of every object the library builds is `WellFormed`: names
  are unique at every depth.
- **Rules as functions** (`rules.dfy`). Each rule maps the root's properties
  to the properties it has afterwards, or to the exception it raises.
  `Rules.ModifyProject` chains the rules.
- **Rules as the program runs them** (`jobject.dfy`, `migrator.dfy`).
  - `JObjects.JObject` is a class whose ordered property list the library
    operations update in place.
  - Each method of `Migrator` changes a `JObject` step by step, as the
    program does. It is proved to leave exactly the tree its function in
    `Rules` computes, or to report that function's exception.

The lemmas state what the rules achieve:

- **`rule_properties.dfy`**: for each rule, when it fails, which names it
  changes, what their new values are, and that it keeps names unique.
- **`pipeline_properties.dfy`**: after a successful run, no legacy key is
  left. The migration is idempotent. Every top-level setting that no rule
  renames, moves or writes keeps its value from the input document.
- **`value_properties.dfy`**: every moved value can be found at its new
  place in the final document. `buildOptions` keeps every member of the
  renamed `compilationOptions` other than `copyToOutput` and `embed`.
- **`scenarios.dfy`**: concrete documents, including the order of the
  generated properties.

Behaviour the model records as the code has it:

- **Missing `frameworks`.** The rename stage reads `frameworks` without a
  null check. A document without `frameworks` therefore makes the whole
  migration fail (`MissingFrameworks`); it is not treated as having no
  frameworks. See `Scenarios.ContentWithoutFrameworksFails`.
- **Existing `mappings`.** `packInclude` is added to `files` with `Add`.
  When `packOptions.files.mappings` already exists, the migration fails
  with a duplicate-name error (`Add` throws). The key is never duplicated.
- **Order of new objects.** When a content setting creates both option
  objects, each is inserted right after the content setting. buildOptions
  is inserted second, so it ends up before publishOptions
  (`Scenarios.ContentMirrored`).
- **Overwriting.** Content and resource values are assigned with the
  indexer. An existing `publishOptions.include`, `copyToOutput.include` or
  `embed.include` is overwritten, not merged.
- **Non-object destinations.** A destination that exists but is not an
  object makes the cast throw (`NotAnObject`).
- **Name clashes in the other rules.**
  - `Replace` fails with a duplicate name when `buildOptions` already sits
    beside `compilationOptions`.
  - `Add` fails when `packOptions` already holds the key being moved.

## Model

| member | source | states |
|---|---|---|
| OrderedObject.IndexOf | Program.cs:52 | `root.Property(name)`: finds a property exactly when one has the name, and returns the first such position |
| OrderedObject.Get | Program.cs:130 | the indexer read `root[name]` gives a value exactly when the name is present |
| OrderedObject.InsertAfter | Program.cs:137 | `AddAfterSelf` puts the new property right after the anchor, and every other property keeps its order |
| OrderedObject.RemoveAt | Program.cs:58 | `Remove` drops one property; the ones after it move up one place and the rest stay |
| OrderedObject.SetOrAppend | Program.cs:84 | the indexer write `obj[name] = v` replaces the value in place when the name exists, and otherwise appends a new property last |
| OrderedObject.GetInsertAfter | Program.cs:137 | after an insert, a lookup finds the new value under the new name and the old value under every other name |
| OrderedObject.GetAppend | Program.cs:141 | after `Add`, a lookup finds the added value under its name and the old value under every other name |
| OrderedObject.GetRemoveAt | Program.cs:123 | after `Remove` in an object with unique names, the removed name is absent and every other lookup is unchanged |
| OrderedObject.GetSetOrAppend | Program.cs:105 | after `obj[name] = v`, `name` holds `v` and every other name is unchanged |
| OrderedObject.SetOrAppendAt | Program.cs:109 | assigning to a name that exists replaces exactly that property |
| OrderedObject.WellFormedInsertAfter | Program.cs:137 | inserting a property under a fresh name keeps names unique at every depth |
| OrderedObject.WellFormedAppend | Program.cs:141 | appending a property under a fresh name keeps names unique |
| OrderedObject.WellFormedRemoveAt | Program.cs:58 | removing a property keeps names unique |
| OrderedObject.WellFormedReplaceAt | Program.cs:153 | replacing a property with one whose name is not taken elsewhere keeps names unique |
| OrderedObject.WellFormedSetOrAppend | Program.cs:84 | the indexer write keeps names unique |
| JObjects.JObject.constructor | Program.cs:133 | a new object holds the given properties and is valid |
| JObjects.JObject.AddAfterSelf | Program.cs:137 | inserts the property right after position `i` and stays valid |
| JObjects.JObject.Add | Program.cs:124 | appends the property; fails with a duplicate name, leaving the object unchanged, when the name is already there |
| JObjects.JObject.Remove | Program.cs:58 | removes the property at position `i` |
| JObjects.JObject.Replace | Program.cs:153 | puts the new property in the old one's place; fails when another property already has the new name |
| JObjects.JObject.Set | Program.cs:109 | `obj[name] = v` on the object's list, keeping it valid |
| Rules.GetOrAdd | Program.cs:128-146 | an absent child is created as an empty object after the anchor, or last without one, and removing it gives back the original; an object child is returned with the parent unchanged; a non-object child fails the cast; succeeds exactly when the child is absent or an object |
| Rules.RenameCompilation | Program.cs:150-154 | `Replace` of `compilationOptions` by `buildOptions` in one object; specified by RuleProperties.RenameCompilationSpec |
| Rules.RenameFrameworks | Program.cs:156-163 | the loop over the `frameworks` entries; specified by RuleProperties.RenameFrameworksSpec |
| Rules.RenameCompilationOptions | Program.cs:148-164 | the rename stage; specified by RuleProperties.RenameCompilationOptionsFails, RenameCompilationOptionsEffect and RenameCompilationOptionsBuild |
| Rules.MoveToPackOptions | Program.cs:116-126 | one pack setting; specified by RuleProperties.MoveToPackOptionsFails, MoveToPackOptionsLookup, MoveToPackOptionsFresh and MoveToPackOptionsExisting |
| Rules.MoveAllToPackOptions | Program.cs:38-41 | the loop over `_packOptionProps` (Program.cs:9, `Rules.PackOptionProps`); specified by RuleProperties.MoveAllToPackOptionsLookup and MoveAllToPackOptionsFails |
| Rules.MovePackIncludeToPackOptions | Program.cs:50-60 | the packInclude stage; specified by RuleProperties.MovePackIncludeFails, MovePackIncludeLookup, MovePackIncludeFresh and MovePackIncludeExisting |
| Rules.MoveContentItem | Program.cs:101-112 | one content item; specified by RuleProperties.MoveContentItemFails, MoveContentItemLookup and the four closed forms MoveContentItemFresh, MoveContentItemExisting, MoveContentItemNewBuild and MoveContentItemNewPublish |
| Rules.MoveContentItems | Program.cs:99-113 | the loop over the content table (Program.cs:92-97, `Rules.ContentItems`); specified by PipelineProperties.MoveContentItemsLookup and ValueProperties.MoveContentItemsStore |
| Rules.MoveContent | Program.cs:90-114 | the content stage; specified by PipelineProperties.ContentStageLookup |
| Rules.MoveResourceItem | Program.cs:72-86 | one resource item; specified by RuleProperties.MoveResourceItemFails, MoveResourceItemLookup, MoveResourceItemFresh and MoveResourceItemExisting |
| Rules.MoveResourceItems | Program.cs:70-87 | the loop over the resource table (Program.cs:64-68, `Rules.ResourceItems`); specified by PipelineProperties.MoveResourceItemsLookup and ValueProperties.MoveResourceItemsStore |
| Rules.MoveResourcesToBuild | Program.cs:62-88 | the resource stage; specified by PipelineProperties.ResourceStageLookup |
| Rules.ModifyProject | Program.cs:34-48 | the stages in the program's order, stopping at the first error; specified by PipelineProperties.ModifyProjectMigrates, ModifyProjectKeepsOthers and ModifyProjectIdempotent and ValueProperties.ModifyProjectKeepsValues |
| RuleProperties.GetOrAddLookup | Program.cs:128-146 | afterwards the name holds the returned child and every other name is unchanged |
| RuleProperties.GetOrAddWellFormed | Program.cs:133-142 | the parent and the returned child both keep unique names |
| RuleProperties.GetOrAddChild | Program.cs:130-131 | the returned child is whatever object was stored under the name, or empty |
| RuleProperties.SetOrAppendAfterGetOrAdd | Program.cs:77-82 | creating `embed` when missing and then assigning it gives the same list as one assignment |
| RuleProperties.RenameCompilationSpec | Program.cs:150-154 | renaming succeeds exactly when `buildOptions` is not already beside `compilationOptions`, and otherwise fails with a duplicate name; on success every property is kept except `compilationOptions`, which becomes `buildOptions` in the same place with the same value |
| RuleProperties.RenameCompilationWellFormed | Program.cs:153 | the rename keeps names unique |
| RuleProperties.RenameFrameworksSpec | Program.cs:156-163 | the frameworks loop succeeds exactly when every entry is an object that can be renamed; every entry keeps its name and has its properties renamed |
| RuleProperties.RenameFrameworksWellFormed | Program.cs:156-163 | the frameworks loop keeps names unique |
| RuleProperties.RenameCompilationOptionsFails | Program.cs:148-164 | the stage succeeds exactly when both renames can be done and `frameworks` is an object whose entries are all objects; with no `frameworks`, it fails with MissingFrameworks |
| RuleProperties.RenameCompilationOptionsEffect | Program.cs:148-164 | on success: every root property except `frameworks` is renamed in place, and every framework entry has its properties renamed |
| RuleProperties.RenameCompilationOptionsWellFormed | Program.cs:148-164 | the rename stage keeps names unique |
| RuleProperties.RenameCompilationOptionsLookup | Program.cs:148-164 | every name other than `compilationOptions`, `buildOptions` and `frameworks` keeps its value |
| RuleProperties.RenameCompilationOptionsBuild | Program.cs:150-154 | afterwards `buildOptions` holds the value `compilationOptions` had, or, without `compilationOptions`, the value `buildOptions` already had |
| RuleProperties.MoveToPackOptionsFails | Program.cs:116-126 | moving a present key succeeds exactly when `packOptions` is absent or an object without that key; otherwise it fails with NotAnObject or DuplicateName |
| RuleProperties.MoveToPackOptionsLookup | Program.cs:116-126 | afterwards the key is gone, `packOptions` holds its old properties plus the key appended last, and every other name is unchanged |
| RuleProperties.MoveToPackOptionsFresh | Program.cs:121-124 | with no `packOptions`, the key is replaced in place by `packOptions` holding just that key |
| RuleProperties.MoveToPackOptionsExisting | Program.cs:121-124 | with an existing `packOptions`, the key is appended to it and removed from the root |
| RuleProperties.MoveToPackOptionsWellFormed | Program.cs:116-126 | moving a key into `packOptions` keeps names unique |
| RuleProperties.MoveAllToPackOptionsWellFormed | Program.cs:38-41 | the pack settings loop keeps names unique |
| RuleProperties.MoveAllToPackOptionsLookup | Program.cs:38-41 | after the loop the keys are gone; `packOptions` holds its old properties followed by the present keys in loop order; other names are unchanged |
| RuleProperties.MoveAllToPackOptionsFails | Program.cs:38-41 | the loop succeeds exactly when no key is present, or when `packOptions` is absent or an object that holds none of the present keys |
| RuleProperties.PackLoopSucceedsStep | Program.cs:38-41 | one pass of the pack settings loop leaves the rest of the loop succeeding exactly when the whole loop would have |
| RuleProperties.MovePackIncludeWellFormed | Program.cs:50-60 | the packInclude stage keeps names unique |
| RuleProperties.MovePackIncludeLookup | Program.cs:50-60 | afterwards `packInclude` is gone, `packOptions` is the old one with `files.mappings` added, and every other name is unchanged |
| RuleProperties.MovePackIncludeFails | Program.cs:55-57 | the stage succeeds exactly when `packOptions` and `files` are absent or objects and `files.mappings` does not exist; otherwise it names the failing cast or the duplicate `mappings` |
| RuleProperties.MovePackIncludeFresh | Program.cs:55-58 | with no `packOptions`, `packInclude` is replaced in place by `packOptions: {files: {mappings: value}}` |
| RuleProperties.MovePackIncludeExisting | Program.cs:55-58 | with an existing `packOptions`, that object gains `files.mappings` where it stands, `packInclude` is removed, and every other root property keeps its place |
| RuleProperties.PublishedLookup | Program.cs:104-105 | after the publishOptions step, `publishOptions` holds its old fields with the value assigned under the destination field, and every other name is unchanged |
| RuleProperties.PublishedWellFormed | Program.cs:104-105 | the publishOptions step keeps names unique |
| RuleProperties.MoveContentItemWellFormed | Program.cs:101-112 | moving one content item keeps names unique |
| RuleProperties.MoveContentItemLookup | Program.cs:101-112 | afterwards the item is gone; `publishOptions.dest` and `buildOptions.copyToOutput.dest` hold its value and their other fields are kept; every other name is unchanged; an absent item changes nothing |
| RuleProperties.MoveContentItemFails | Program.cs:104-108 | the item moves exactly when `publishOptions`, `buildOptions` and `copyToOutput` are each absent or objects, and the error names the first one that is not |
| RuleProperties.MoveContentItemFresh | Program.cs:104-111 | with neither option object present, the item is replaced by `buildOptions` followed by `publishOptions` |
| RuleProperties.MoveContentItemExisting | Program.cs:104-111 | with both option objects present, each is updated where it stands, the item is removed, and nothing else moves |
| RuleProperties.MoveContentItemNewBuild | Program.cs:104-111 | with `publishOptions` present and no `buildOptions`, `publishOptions` is updated where it stands and the new `buildOptions` takes the item's place |
| RuleProperties.MoveContentItemNewPublish | Program.cs:104-111 | with `buildOptions` present and no `publishOptions`, the new `publishOptions` takes the item's place and `buildOptions` is updated where it stands |
| RuleProperties.MoveResourceItemWellFormed | Program.cs:72-86 | moving one resource item keeps names unique |
| RuleProperties.MoveResourceItemLookup | Program.cs:72-86 | afterwards the item is gone, `buildOptions.embed.dest` holds its value with the other embed and buildOptions fields kept, and every other name is unchanged |
| RuleProperties.MoveResourceItemFails | Program.cs:75-78 | the item moves exactly when `buildOptions` and `embed` are each absent or objects, and the error names the first one that is not |
| RuleProperties.MoveResourceItemFresh | Program.cs:75-85 | with no `buildOptions`, the item is replaced in place by `buildOptions: {embed: {dest: value}}` |
| RuleProperties.MoveResourceItemExisting | Program.cs:75-85 | with an existing `buildOptions`, it gains `embed.dest` where it stands, the item is removed, and nothing else moves |
| Migrator.GetOrAddProperty | Program.cs:128-146 | the root ends up as `Rules.GetOrAdd` describes and the method returns a fresh object holding the child; when the cast fails, the root is unchanged |
| Migrator.RenameCompilation | Program.cs:150-154 | replacing `compilationOptions` by `buildOptions` in one object, root or framework entry (Program.cs:158-162 repeats it), leaves the tree `Rules.RenameCompilation` computes |
| Migrator.AddToChild | Program.cs:56-57 | the child is looked up or created, a name it already has fails with `DuplicateName`, and otherwise the property is appended to the child and the child is stored back |
| Migrator.StoreInEmbed | Program.cs:77-84 | `embed` is looked up or created at the end of `buildOptions`, a non-object `embed` fails with `NotAnObject`, and otherwise the value is set under `dest` and `embed` is stored back |
| Migrator.StoreInChild | Program.cs:104-109 | the child is looked up, or created after the anchor (at the end when there is none); the value is set under `dest`, and the child is stored back; a non-object child fails with `NotAnObject` |
| Migrator.StoreInGrandchild | Program.cs:107-109 | `buildOptions` is looked up, or created after the anchor; inside it `copyToOutput` is looked up or created at the end, the value is set under `dest`, and both objects are stored back; a non-object at either level fails with `NotAnObject` |
| Migrator.RenameCompilationOptions | Program.cs:148-164 | the in-place rename leaves the tree `Rules.RenameCompilationOptions` computes, or reports its error |
| Migrator.MoveToPackOptions | Program.cs:116-126 | the in-place move of one key leaves the tree `Rules.MoveToPackOptions` computes, or reports its error |
| Migrator.MovePackIncludeToPackOptions | Program.cs:50-60 | the in-place packInclude move leaves the tree `Rules.MovePackIncludeToPackOptions` computes, or reports its error |
| Migrator.MoveResourceItem | Program.cs:72-86 | the in-place move of one resource item leaves the tree `Rules.MoveResourceItem` computes, or reports its error |
| Migrator.MoveResourcesToBuild | Program.cs:62-88 | the loop over the resource table leaves the tree `Rules.MoveResourcesToBuild` computes, or reports its error |
| Migrator.MoveContentItem | Program.cs:101-112 | the in-place move of one content item leaves the tree `Rules.MoveContentItem` computes, or reports its error |
| Migrator.MoveContent | Program.cs:90-114 | the loop over the content table leaves the tree `Rules.MoveContent` computes, or reports its error |
| Migrator.ModifyProject | Program.cs:34-48 | the whole pipeline run in place leaves the tree `Rules.ModifyProject` computes, or reports the first error |
| PipelineProperties.RenameCompilationOptionsMigrates | Program.cs:148-164 | after the rename stage, neither the root nor any framework entry has `compilationOptions`, and names stay unique |
| PipelineProperties.MoveContentItemsLookup | Program.cs:90-114 | the content loop removes every source key in its table, leaves names other than the sources and the two destinations unchanged, and keeps names unique |
| PipelineProperties.MoveResourceItemsLookup | Program.cs:62-88 | the resource loop removes every source key in its table, leaves names other than the sources and `buildOptions` unchanged, and keeps names unique |
| PipelineProperties.PackStageLookup | Program.cs:38-41 | after the pack settings stage, `repository`, `tags` and `licenseUrl` are absent and every name other than `packOptions` is unchanged |
| PipelineProperties.IncludeStageLookup | Program.cs:43 | after the packInclude stage, `packInclude` is absent and every name other than `packOptions` is unchanged |
| PipelineProperties.ContentStageLookup | Program.cs:44 | after the content stage, the three content keys are absent and every name other than the two option objects is unchanged |
| PipelineProperties.ResourceStageLookup | Program.cs:45 | after the resource stage, both resource keys are absent and every name other than `buildOptions` is unchanged |
| PipelineProperties.RelocationLookup | Program.cs:38-45 | after the four moving stages, none of the nine legacy keys is left, and every name that is not a legacy key or a destination keeps its value |
| PipelineProperties.ModifyProjectKeepsOthers | Program.cs:34-48 | a top-level name that no stage renames, moves or writes into has the same value after the whole migration as in the input |
| PipelineProperties.ModifyProjectMigrates | Program.cs:34-48 | a successful migration leaves unique names and no legacy setting: no `compilationOptions` at the root or in any framework, and none of the moved keys |
| PipelineProperties.RenameFrameworksUnchanged | Program.cs:156-163 | the frameworks loop leaves entries without `compilationOptions` unchanged |
| PipelineProperties.MoveAllToPackOptionsAbsent | Program.cs:38-41 | the pack loop changes nothing when none of its keys is present |
| PipelineProperties.MoveContentItemsAbsent | Program.cs:99-102 | the content loop changes nothing when none of its sources is present |
| PipelineProperties.MoveResourceItemsAbsent | Program.cs:70-73 | the resource loop changes nothing when none of its sources is present |
| PipelineProperties.RenameCompilationOptionsUnchanged | Program.cs:148-164 | the rename stage changes nothing in a document that is already renamed |
| PipelineProperties.PackStageUnchanged | Program.cs:38-41 | the pack settings stage changes nothing without its three keys |
| PipelineProperties.ContentStageUnchanged | Program.cs:90-114 | the content stage changes nothing without its three keys |
| PipelineProperties.ResourceStageUnchanged | Program.cs:62-88 | the resource stage changes nothing without its two keys |
| PipelineProperties.MigratedUnchanged | Program.cs:34-48 | the migration returns an already migrated document unchanged |
| PipelineProperties.ModifyProjectIdempotent | Program.cs:34-48 | migrating a migrated document again gives the same document: the tool is idempotent |
| ValueProperties.MoveContentItemStores | Program.cs:104-109 | one content item stores its value in both `publishOptions.dest` and `buildOptions.copyToOutput.dest`, and keeps what the other destination fields held |
| ValueProperties.MoveContentItemsKeep | Program.cs:99-113 | the content loop keeps the stored value of every field that none of its items writes |
| ValueProperties.MoveContentItemsStore | Program.cs:99-113 | after the content loop, every present item's value is stored under its destination field in both places |
| ValueProperties.MoveResourceItemStores | Program.cs:77-84 | one resource item stores its value in `buildOptions.embed.dest` and keeps the other embed fields |
| ValueProperties.MoveResourceItemKeepsContent | Program.cs:75-84 | moving a resource item keeps every content value in `publishOptions` and `copyToOutput` |
| ValueProperties.MoveResourceItemsKeep | Program.cs:70-87 | the resource loop keeps embed fields it does not write, and every content value |
| ValueProperties.MoveResourceItemsStore | Program.cs:70-87 | after the resource loop, every present item's value is stored under its embed field |
| ValueProperties.MoveContentItemKeepsBuild | Program.cs:107-109 | one content item changes `buildOptions` only under `copyToOutput` |
| ValueProperties.MoveContentItemsKeepBuild | Program.cs:99-113 | the content loop changes `buildOptions` only under `copyToOutput` |
| ValueProperties.MoveResourceItemKeepsBuild | Program.cs:75-84 | one resource item changes `buildOptions` only under `embed` |
| ValueProperties.MoveResourceItemsKeepBuild | Program.cs:70-87 | the resource loop changes `buildOptions` only under `embed` |
| ValueProperties.PackStageStores | Program.cs:38-41 | after the pack settings stage, `packOptions` holds each moved key with its original value |
| ValueProperties.IncludeStageStores | Program.cs:55-57 | the packInclude stage keeps the other `packOptions` fields and stores the packInclude value at `files.mappings` |
| ValueProperties.LaterStagesKeepPack | Program.cs:44-45 | the content and resource stages leave `packOptions` untouched |
| ValueProperties.EarlyStagesKeep | Program.cs:37-43 | the first three stages keep every name they do not touch |
| ValueProperties.ModifyProjectStoresPack | Program.cs:34-48 | after the whole pipeline, each pack setting and the packInclude value are at their places in `packOptions` |
| ValueProperties.ContentItemSurvives | Program.cs:34-48 | after the whole pipeline, each present content setting's value is stored under its field in `publishOptions` and in `buildOptions.copyToOutput` |
| ValueProperties.ResourceItemSurvives | Program.cs:34-48 | after the whole pipeline, each present resource setting's value is stored under its field in `buildOptions.embed` |
| ValueProperties.ModifyProjectKeepsValues | Program.cs:34-48 | no moved value is lost: in the migrated document every legacy value sits at its new place |
| ValueProperties.ModifyProjectKeepsBuildOptions | Program.cs:34-48 | every member of the input's `compilationOptions` (or of its `buildOptions` when there is no `compilationOptions`) other than `copyToOutput` and `embed` is in the migrated `buildOptions` with its value |
| Scenarios.PackOptionsOrder | Program.cs:38-41 | `repository`, `tags`, `licenseUrl` end up in `packOptions` in that order, and `packOptions` takes `repository`'s place |
| Scenarios.PackJoinNext | Program.cs:121-124 | a key right after an existing `packOptions` that lacks it is appended to `packOptions` and leaves the root |
| Scenarios.ContentMirrored | Program.cs:104-111 | a lone `content` becomes `buildOptions.copyToOutput.include` and `publishOptions.include`, with buildOptions first |
| Scenarios.ContentWithoutFrameworksFails | Program.cs:156 | the same document run through the whole migration fails because it has no `frameworks` |
| Scenarios.PackOptionsShared | Program.cs:55 | `tags` and `packInclude` end up in one shared `packOptions`: created by the first rule, reused by the second |

## Left out

- Program.cs:11-32, the command-line entry point, is not modelled: the file enumeration, the reads and writes, and the check that writes a file only when its text changed are all I/O.
- Parsing (`JObject.Parse`) and serialisation (`ToString`) are not modelled. The model starts from a parsed tree and ends with a tree. Formatting and whitespace are not captured.
- Numbers are kept as their literal text, so no floating-point behaviour is modelled. Strings are character sequences with no escaping.
- The library copies a property when it is attached to a second parent. In the model, lookup-or-create returns a copy of the child, and the caller stores the changed copy back under the same name. The final tree is the same as with the library's shared references; aliasing itself is not modelled.
- Migrator.RenameCompilationOptions, Migrator.MoveToPackOptions, Migrator.MovePackIncludeToPackOptions, Migrator.AddToChild, Migrator.StoreInGrandchild, Migrator.MoveResourceItem, Migrator.MoveResourcesToBuild, Migrator.MoveContentItem, Migrator.MoveContent, Migrator.ModifyProject: after a failure the contract states only the error, not the partly changed tree. An exception ends the run for that file, so that tree is never written.
- Exceptions are modelled as `Err` results with a reason: a failed cast, a duplicate name, or a missing `frameworks`. The .NET exception types and messages are not modelled.
