# lxd_img_builder in Dafny

A model of YunoHost's LXD/Incus image builder, with proofs about it. The builder turns a fresh
Debian container into YunoHost images (`build-and-lint`, `before-install`, `dev`, `appci`,
`core-tests`, `demo`). It publishes each image under `yunohost/<release>-<distribution>/<variant>`
and can import the images into a simplestreams repository. A second script prunes that
repository.

The model is split into modules that follow the Python package:

- `Incus` (`incus.dfy`) models the `Incus` wrapper.
  - Its pure parts are functions: the platform-to-architecture table, membership in parsed
    listings, the arguments of `incus exec` and `incus publish`, and the exit-status rule.
  - Its commands are the methods of the class `Engine`, an abstract incus daemon. The engine
    holds the instances (name to run-state) and the local images (alias to property bag). It
    also holds the files of the host and a log of every external command started, in order.
  - Each engine method requires what incus needs to accept the command: stop and exec need a
    running instance, delete and publish need a stopped one, launch needs a free name, publish needs a
    free alias, and export and image delete need an existing image. Every builder method is
    proved to meet these requirements.
- `Streams` (`simplestreams.dfy`) models the simplestreams repository.
  - A catalog is product → version → item → {path, sha256}. Each JSON object is an association
    list in document order.
  - The flattening into referenced paths, the removal of superseded versions and the import are
    modelled, along with the class `SimpleStreams`. `incus-simplestreams remove` is given an
    item's sha256, not a version: `RemoveCommandsIff` states which hashes the clean-up removes. PruneImages and CleanPreviousVersions keep
    their loops.
- `Builder` (`image_builder.dfy`) models `ImageBuilder` as a class over the shared engine, plus
  the variant table of `main` as data (`PlanOf`). `Build` runs one whole invocation of the
  script.
  - Each method is proved to produce a stated engine state and command log. The `...Log`
    functions give the log, and `PublishedImages`, `StagesImages` and `StagesFiles` give the
    images and files.
  - The properties of the whole run are proved as lemmas about those functions.
- `PruneScript` (`prune.dfy`) models the pruning script: version clean-up, then pruning of
  `images/`.
- `Strings` (`strings.dfy`) holds what the scripts take from Python: the `str` order, `sorted`,
  `join`, and `Path` children. It also holds a first-occurrence search, which the model's own
  parse-back functions use.
- `Wrappers` (`wrappers.dfy`) holds `Option<T>`, `Result` (a value or an error message) and
  `Outcome` (`Pass | Fail(error)`).

Three things are parameters of the model rather than computed by it:

- the host machine name, `Engine.machine`;
- the formatted date each publication reads, in `clock`;
- the catalog each step reads.

## Model

| member | source | states |
|---|---|---|
| Strings.Sort | incuslib/simplestreams.py:57 | `sorted` on strings: the result ascends in Python's code-point order and is a permutation of the input (same multiset) |
| Strings.Le | incuslib/simplestreams.py:57 | Python's `<=` on `str`: code point by code point, with a proper prefix first. Its order laws are LeReflexive, LeTotal, LeAntisymmetric and LeTransitive |
| Strings.LeTransitive | incuslib/simplestreams.py:57 | Python's `<=` on `str` is transitive; with LeTotal and LeAntisymmetric, it is a total order |
| Strings.ChildInDir | incuslib/simplestreams.py:47-50 | `dir / name` is an entry of `dir.iterdir()` exactly when `name` is non-empty and holds no `/` |
| Strings.Child | incuslib/simplestreams.py:21 | `dir / name` as `dir + "/" + name`. ChildInDir states when the result is an entry of `dir` |
| Strings.JoinAppend | incuslib/incus.py:42 | joining two non-empty lists of parts is joining each, with one separator between |
| Strings.Join | incuslib/incus.py:42 | `sep.join(parts)`: the parts with the separator between them, as CheckExit uses it for its message |
| Incus.ExecCommand | incuslib/incus.py:70-73 | `execute` runs `incus exec <instance> -- <args>`: the first four words are that prefix and the rest are the arguments unchanged |
| Incus.IncusCommand | incuslib/incus.py:27-31 | every command the wrapper runs is `incus` followed by its arguments |
| Incus.CheckExit | incuslib/incus.py:40-42 | exit status 0 passes; any other status fails with `Could not run <command joined by spaces>`. ExecFailureNamesCommand applies it to the commands `Engine.Execute` runs |
| Incus.ExecFailureNamesCommand | incuslib/incus.py:40-42 | an `incus exec` that exits non-zero fails with `Could not run incus exec <instance> --` followed by the arguments separated by spaces, for any instance and argument list |
| Incus.Arch | incuslib/incus.py:16-24 | x86_64 and amd64 map to amd64, arm64 and aarch64 to arm64, armhf to armhf; success exactly on those five machines; any other machine fails with `Unknown platform <m>!`; every result is in {amd64, arm64, armhf} |
| Incus.InstanceNames | incuslib/incus.py:50-51 | the listed names, one per listing entry, in order |
| Incus.InstanceListedIff | incuslib/incus.py:49-52 | `instance_exists(name)` is true iff some listed entry has that `name` |
| Incus.InstanceListed | incuslib/incus.py:49-52 | `instance_exists` over a parsed listing: the name is among the listed names. InstanceListedIff characterises it |
| Incus.InstanceStoppedIn | incuslib/incus.py:44-47 | `instance_stopped` fails (the assertion) iff the instance is not listed; otherwise it is true iff `info` reports `STOPPED` |
| Incus.ImageAliases | incuslib/incus.py:87-88 | an alias is in the flattened list iff some image lists it among its aliases |
| Incus.ImageListed | incuslib/incus.py:86-89 | `image_exists` over a parsed listing: the alias is among the flattened aliases. ImageAliases characterises the list |
| Incus.ListingsAgreeWithEngine | incuslib/incus.py:44-52 | over listings that name exactly the engine's instances and images, `instance_exists`, `instance_stopped` (with `info` reporting the instance's state) and (lines 86-89) `image_exists` answer what the engine state says |
| Incus.PropertyArgs | incuslib/incus.py:78 | one `key=value` argument per property, in property order |
| Incus.SplitPropertyRoundTrip | incuslib/incus.py:78 | `key=value` splits at its first `=` back into key and value when the key holds no `=` |
| Incus.PropertyArgsRoundTrip | incuslib/incus.py:78 | every property argument reads back as its property when no key holds `=` |
| Incus.PublishCommand | incuslib/incus.py:75-79 | `incus publish <instance> --alias <alias>` and the property arguments. PublishCommandShape states its parts |
| Incus.PublishCommandShape | incuslib/incus.py:75-79 | `publish` runs `incus publish <instance> --alias <alias>` followed by exactly the property arguments |
| Incus.ListCall | incuslib/incus.py:50 | `incus list -f yaml`, the listing `instance_exists` reads |
| Incus.ImageListCall | incuslib/incus.py:87 | `incus image list -f yaml`, the listing `image_exists` reads |
| Incus.ExportedFile | incuslib/simplestreams.py:21-23 | `<dir>/<target>.tar.gz`, the archive `incus image export <alias> <target>` writes in its working directory. Engine.ImageExport adds it to the host files |
| Incus.InfoCall | incuslib/incus.py:46 | `incus info <name>`, in the inherited directory |
| Incus.StartCall | incuslib/incus.py:55 | `incus start <name>` |
| Incus.StopCall | incuslib/incus.py:58 | `incus stop <name>` |
| Incus.DeleteCall | incuslib/incus.py:61 | `incus delete <name>` |
| Incus.LaunchCall | incuslib/incus.py:64 | `incus launch <image> <name>` |
| Incus.PushCall | incuslib/incus.py:67 | `incus file push <file> <name><target>` |
| Incus.ExecCall | incuslib/incus.py:70-73 | the exec command of ExecCommand, in the inherited directory |
| Incus.PublishCall | incuslib/incus.py:79 | the publish command of PublishCommand |
| Incus.ExportCall | incuslib/incus.py:84 | `incus image export <alias> <target>`, run in the target directory |
| Incus.ImageDeleteCall | incuslib/incus.py:92 | `incus image delete <alias>` |
| Incus.Engine.constructor | incuslib/incus.py:12-14 | an engine with the given machine, instances, images and host files, and an empty log |
| Incus.Engine.Entries | incuslib/simplestreams.py:50 | `iterdir`: exactly the host files directly inside the directory |
| Incus.Engine.GetArch | incuslib/incus.py:16-24 | the architecture of the host machine, by `Arch` |
| Incus.Engine.InstanceExists | incuslib/incus.py:49-52 | true iff the instance exists; logs `incus list -f yaml` |
| Incus.Engine.InstanceStopped | incuslib/incus.py:44-47 | needs the instance to exist; true iff it is stopped; logs the listing and `incus info` |
| Incus.Engine.InstanceStart | incuslib/incus.py:54-55 | a stopped instance becomes running; logs `incus start` |
| Incus.Engine.InstanceStop | incuslib/incus.py:57-58 | a running instance becomes stopped; logs `incus stop` |
| Incus.Engine.InstanceDelete | incuslib/incus.py:60-61 | a stopped instance is removed; logs `incus delete` |
| Incus.Engine.Launch | incuslib/incus.py:63-64 | a new running instance from a remote or local image under a free name; logs `incus launch` |
| Incus.Engine.PushFile | incuslib/incus.py:66-68 | logs `incus file push <file> <instance><target>` |
| Incus.Engine.Execute | incuslib/incus.py:70-73 | needs a running instance, because `incus exec` refuses any other; logs the exec command |
| Incus.Engine.Publish | incuslib/incus.py:75-79 | from a stopped instance, the free alias now names an image with the properties; logs the publish command |
| Incus.Engine.ImageExport | incuslib/incus.py:81-84 | writes `<target>.tar.gz` in the target directory; logs `incus image export` run there |
| Incus.Engine.ImageExists | incuslib/incus.py:86-89 | true iff the alias names an image; logs `incus image list -f yaml` |
| Incus.Engine.ImageDelete | incuslib/incus.py:91-92 | the alias no longer names an image; logs `incus image delete` |
| Incus.Engine.RunTool | incuslib/simplestreams.py:25-28 | an `incus-simplestreams` command is recorded with its working directory, and nothing else changes |
| Incus.Engine.Unlink | incuslib/simplestreams.py:29 | an existing file is removed from the host |
| Streams.Keys | incuslib/simplestreams.py:57 | `d.keys()`: the keys in document order |
| Streams.Get | incuslib/simplestreams.py:59 | `d[key]` is a value stored under the key |
| Streams.GetAt | incuslib/simplestreams.py:59 | with distinct keys, `d[key]` is the value of that entry |
| Streams.VersionItems | incuslib/simplestreams.py:37 | `items.values()`, one per item, in order |
| Streams.ProductItems | incuslib/simplestreams.py:33-38 | the items of every version of one product, version after version. CatalogItemsCount and CatalogItemsMembers characterise the flattening |
| Streams.CatalogItems | incuslib/simplestreams.py:33-38 | the triple comprehension's items, product after product. CatalogItemsCount gives their number and CatalogItemsMembers their membership |
| Streams.CatalogItemsCount | incuslib/simplestreams.py:33-38 | the flattened items number exactly the catalog's item count, summed independently |
| Streams.CatalogItemsMembers | incuslib/simplestreams.py:33-38 | an item is in the flattened list iff it is an item of some version of some product |
| Streams.ImagesPaths | incuslib/simplestreams.py:31-39 | `images_paths`: `root / item["path"]` for every item of every version of every product, in document order. ImagesPathsOnePerItem and ImagesPathsMembers characterise it |
| Streams.ImagesPathsOnePerItem | incuslib/simplestreams.py:31-39 | `images_paths` has exactly one entry per item (its length is the item count), each the root joined with the item's path |
| Streams.ImagesPathsMembers | incuslib/simplestreams.py:31-39 | a path is referenced iff it is `root / path` of some item of the catalog |
| Streams.Superseded | incuslib/simplestreams.py:57-58 | `sorted(keys)[:-1]`: ascending version keys of the product, one fewer than there are versions, none for zero or one version |
| Streams.Latest | incuslib/simplestreams.py:57-58 | the last of the sorted version keys, the one the clean-up keeps. LatestIsGreatest and LatestNeverSuperseded characterise it |
| Streams.LatestIsGreatest | incuslib/simplestreams.py:57-58 | the version kept is a key of the product and is `>=` every key |
| Streams.LatestNeverSuperseded | incuslib/simplestreams.py:57-58 | with distinct keys, the superseded versions are exactly the keys other than the greatest |
| Streams.VersionRemovals | incuslib/simplestreams.py:59-60 | one removal per item of a version, carrying the item's sha256, in item order |
| Streams.RemovalsOf | incuslib/simplestreams.py:58-60 | the removals of the given versions of one product, version after version. RemovalsOfFrom, RemovalsOfComplete and RemovalsOfAscending characterise it |
| Streams.ProductRemovals | incuslib/simplestreams.py:57-60 | the removals of a product's superseded versions. ProductRemovalsSpec characterises it |
| Streams.Removals | incuslib/simplestreams.py:56-64 | the removals of a catalog, product after product in document order. RemovalsFrom and LatestVersionsUntouched characterise it |
| Streams.RemovalsOfFrom | incuslib/simplestreams.py:58-60 | every removal names a requested version and the sha256 of one of its items |
| Streams.RemovalsOfComplete | incuslib/simplestreams.py:58-60 | every item of every requested version is removed |
| Streams.RemovalsOfAscending | incuslib/simplestreams.py:57-59 | over ascending versions, the removals ascend by version |
| Streams.ProductRemovalsSpec | incuslib/simplestreams.py:57-64 | per product: removals come exactly from the items of superseded versions, all of them, in ascending version order |
| Streams.RemovalsFrom | incuslib/simplestreams.py:55-64 | every removal of a catalog names a superseded version of a product of that name |
| Streams.LatestVersionsUntouched | incuslib/simplestreams.py:55-64 | in a catalog read from JSON (distinct keys), no removal is drawn from the greatest version of its product. The command only carries the hash, so see `RemoveCommandsIff` for what is actually removed |
| Streams.SingleVersionsNoRemovals | incuslib/simplestreams.py:57-58 | products with zero or one version get no removal |
| Streams.RemoveCalls | incuslib/simplestreams.py:62-64 | one `incus-simplestreams remove <sha256>` per removal, in order, run in the repository |
| Streams.RemoveCall | incuslib/simplestreams.py:62-63 | `incus-simplestreams remove <sha256>`, run in the repository |
| Streams.ProductRemovalHashes | incuslib/simplestreams.py:57-60 | the hashes a product's removals carry are exactly those of the items of its superseded versions |
| Streams.Hashes | incuslib/simplestreams.py:60-64 | the sha256 each removal passes to `remove`, one per removal, in order |
| Streams.RemovalHashes | incuslib/simplestreams.py:55-64 | over the whole catalog, a hash is among the removals iff it is the hash of an item of a superseded version of some product |
| Streams.RemoveCommandsIff | incuslib/simplestreams.py:55-64 | removal goes by hash: the clean-up issues `remove <h>` iff `h` is the hash of an item of a superseded version of some product, even when an item of a greatest version has the same hash |
| Streams.LatestItemKept | incuslib/simplestreams.py:55-64 | an item of a product's greatest version is never named by a `remove` when its hash belongs to no item of any superseded version |
| Streams.PruneKeepsReferenced | incuslib/simplestreams.py:47-53 | a referenced file is never deleted |
| Streams.PruneRemovesOnlyStale | incuslib/simplestreams.py:47-53 | every unreferenced entry of `images/` is gone, nothing is added, and nothing outside `images/` changes |
| Streams.PruneIdempotent | incuslib/simplestreams.py:49-53 | a second prune against the same catalog deletes nothing |
| Streams.ImagesDir | incuslib/simplestreams.py:47 | `self.path / "images"` |
| Streams.Stale | incuslib/simplestreams.py:50-51 | the entries of the directory that are not in the referenced list |
| Streams.AfterPrune | incuslib/simplestreams.py:49-53 | the host files less the stale entries. PruneKeepsReferenced, PruneRemovesOnlyStale and PruneIdempotent characterise it |
| Streams.Underscorify | incuslib/simplestreams.py:20 | `alias.replace("/", "_")`: same length, each `/` becomes `_`, other characters kept, no `/` left |
| Streams.StagedFile | incuslib/simplestreams.py:20-21 | `cachedir / f"{alias.replace('/', '_')}.tar.gz"`, the file `incus image export` writes there. StagedFileInCache places it |
| Streams.ImportLog | incuslib/simplestreams.py:23-28 | the commands of `import_from_incus`: the export into the cache, then `incus-simplestreams add <file>` run in the repository |
| Streams.StagedFileInCache | incuslib/simplestreams.py:20-21 | the staged archive is an entry directly inside the cache directory, whatever the alias |
| Streams.SimpleStreams.constructor | incuslib/simplestreams.py:12-17 | keeps the engine, the repository root and the cache directory |
| Streams.SimpleStreams.ImportFromIncus | incuslib/simplestreams.py:19-29 | export into the cache, then `incus-simplestreams add` in the repository, then unlink. The staged file is gone afterwards, and the exit status of `add` is not looked at |
| Streams.SimpleStreams.PruneImages | incuslib/simplestreams.py:46-53 | computes the referenced list once, before the first deletion; the host files end as `AfterPrune` (everything else unchanged) |
| Streams.SimpleStreams.CleanPreviousVersions | incuslib/simplestreams.py:55-64 | the log grows by exactly the `remove` commands of `Removals`, product after product |
| Streams.SimpleStreams.RemoveSupersededVersions | incuslib/simplestreams.py:57-64 | the removals of one product's superseded versions, in ascending order |
| Streams.SimpleStreams.RemoveItems | incuslib/simplestreams.py:59-64 | one `remove` per item of the version, in item order |
| PruneScript.Prune | prune_incus_simplestreams.py:21-24 | clean-up, then prune. The log is the removals of the catalog the clean-up read, the files are pruned against the catalog read afterwards, and instances and images are unchanged |
| Builder.InstanceNameRoundTrip | image_builder.py:22 | `ynh-builder-<dv>-<dist>` determines release and distribution when the release has no `-` |
| Builder.InstanceName | image_builder.py:22 | `ynh-builder-<dv>-<dist>`. InstanceNameRoundTrip and InstanceNamesDistinct characterise it |
| Builder.InstanceNamesDistinct | image_builder.py:22 | over the accepted releases, two builders share an instance name iff they have the same release and distribution |
| Builder.ImageAliasRoundTrip | image_builder.py:26-27 | `yunohost/<dv>-<dist>/<short>` determines its three parts |
| Builder.ImageAliasesDistinct | image_builder.py:26-27 | over the accepted choices, aliases collide iff release, distribution and short name agree, so one variant's publication never replaces another's |
| Builder.ImageAlias | image_builder.py:26-27 | `yunohost/<dv>-<dist>/<short>`. ImageAliasRoundTrip and ImageAliasesDistinct characterise it |
| Builder.AliasInjective | image_builder.py:26-27 | within one build, two aliases are equal iff their short names are |
| Builder.GitBranch | image_builder.py:95 | `dev` for bookworm, the release itself otherwise |
| Builder.RecipeEnv | image_builder.py:98-100 | the three variables `RELEASE`, `DEBIAN_VERSION` and `gitbranch`, in command-line order. RecipeEnvironment reads them back from the command |
| Builder.RecipeCommand | image_builder.py:96-103 | `env` with the three variables, then `/root/recipes <name>`. RecipeCommandSpelled and RecipeEnvironment characterise it |
| Builder.Description | image_builder.py:55 | `YunoHost <dv> <dist> ynh-<short> <arch> (<date>)`, with the date already rendered as `%Y%m%d` |
| Builder.PublishProperties | image_builder.py:65-71 | the five properties in dict order. PublishPropertyKeys, PublishPropertiesRoundTrip and AliasFromProperties characterise it |
| Builder.RecipeCommandSpelled | image_builder.py:95-103 | the recipe command is `env RELEASE=<dist> DEBIAN_VERSION=<dv> gitbranch=<b> /root/recipes <name>`, with `<b>` `dev` exactly for bookworm |
| Builder.RecipeEnvironment | image_builder.py:95-103 | six words; the three assignments split back into RELEASE, DEBIAN_VERSION and gitbranch with their values; then the recipe file and the function name |
| Builder.PublishPropertyKeys | image_builder.py:65-71 | the image carries exactly description, os, release, variant, architecture, in that order |
| Builder.PublishPropertiesRoundTrip | image_builder.py:65-74 | each argument of the publish command reads back as its property |
| Builder.AliasFromProperties | image_builder.py:65-71 | the alias is `yunohost/` + release + `/` + variant |
| Builder.ClearLogCommands | image_builder.py:38-45 | `clear` deletes iff the instance exists, stops iff it runs, never starts it, and ends with the delete |
| Builder.ClearIdempotent | image_builder.py:38-45 | a second `clear` finds nothing, only lists, and changes nothing |
| Builder.ClearLog | image_builder.py:38-45 | the commands of `clear` for a prior state: list; when present, the list and info of `instance_stopped`, the stop when running, the delete. ClearLogCommands and ClearIdempotent characterise it |
| Builder.StartLog | image_builder.py:29-36 | the commands of `start`: those of `clear`, the launch of the base image, `dhclient eth0` |
| Builder.RunScriptLog | image_builder.py:92-107 | the commands of `run_script`: push the recipes, run the recipe command, remove the recipes |
| Builder.PublishTail | image_builder.py:57-83 | the commands of `publish` once the architecture is known. PublishOrder states their order |
| Builder.PublishLog | image_builder.py:47-83 | the commands of `publish`: slimify, then the tail unless the architecture is unknown. PublishFailed and PublishSucceeded characterise it |
| Builder.PublishedImages | image_builder.py:57-74 | the images after a `publish`: the alias names the new property bag, unless the architecture is unknown |
| Builder.PublishedFiles | image_builder.py:76-78 | the host files after a `publish`: the staged archive is gone, when there is a repository and a known architecture |
| Builder.PublishOrder | image_builder.py:57-83 | the listing and `info`, then the stop when running, then the publish, then the repository import directly after it, and only then the restart |
| Builder.PublishFailed | image_builder.py:47-53 | on an unknown architecture `publish` gets no further than `slimify`: its log is that recipe alone, and no image and no host file changes |
| Builder.PublishSucceeded | image_builder.py:47-83 | on a known architecture `publish` is `slimify` followed by the publication, and the alias then names an image with the five properties |
| Builder.BuildLogSplit | image_builder.py:156-195 | a run ends with the final `clear` exactly when the architecture is known, and otherwise stops after its branch |
| Builder.VariantName | image_builder.py:134 | the five `choices` of the command line, one name per variant. ParseVariantIff makes it the inverse of ParseVariant |
| Builder.ParseVariant | image_builder.py:134 | argparse's check: one of the five choices gives its variant, any other name is rejected. ParseVariantIff states both directions |
| Builder.ParseVariantIff | image_builder.py:132-135 | the accepted variant names correspond one-to-one to the variants |
| Builder.PlanOf | image_builder.py:156-193 | the if-chain of `main` as data: each variant's base, whether it pushes the runner package, and its stages. LocalBasesArePublished and PlanStagesDistinct characterise it |
| Builder.CacheDir | image_builder.py:77 | `SCRIPT_DIR / "images"`, the cache directory handed to `SimpleStreams`. StagedFileInCache puts each staged archive directly inside it |
| Builder.BaseImage | image_builder.py:29-33 | the image `start` launches: `images:debian/<dv>` by default, the local alias of a short name otherwise (lines 186 and 191). LocalBasesArePublished says which variants publish those aliases |
| Builder.StageLog | image_builder.py:161-162 | one `run_script` followed by one `publish`, as each stage of `main` does (also lines 177-182, 187-188, 192-193). OneStage and ThreeStages unfold it |
| Builder.StagesLog | image_builder.py:156-193 | the commands of a variant's stages, up to the first failed publication. OneStage and ThreeStages unfold it |
| Builder.StagesImages | image_builder.py:156-193 | the images after a variant's stages. StagesImagesPublished, StagesImagesKeep and VariantStagesPublished characterise it |
| Builder.StagesFiles | image_builder.py:156-193 | the host files after a variant's stages. StagesFilesRemoved characterises it |
| Builder.BranchLog | image_builder.py:156-193 | the commands of a branch of `main`: start, the runner push when the variant has it, the stages |
| Builder.BuildLog | image_builder.py:156-195 | the commands of a whole run: the branch, then the final `clear` unless a publication failed. BuildLogSplit characterises it |
| Builder.LocalBasesArePublished | image_builder.py:184-193 | appci-only and demo start from an image that a Debian-based variant publishes |
| Builder.PlanStagesDistinct | image_builder.py:156-193 | every variant publishes at least one image, each stage under its own short name |
| Builder.StagesFilesRemoved | image_builder.py:76-78 | with a repository and a known architecture, a build removes exactly the staged archive of each stage from the host; otherwise host files are unchanged |
| Builder.StagesImagesPublished | image_builder.py:156-193 | after a build on a known architecture, every stage's alias names its image with that stage's properties; on an unknown one, no image changed |
| Builder.VariantStagesPublished | image_builder.py:156-193 | a build of any variant on a known architecture leaves every stage of its plan published under its alias, with its properties and date |
| Builder.StagesImagesKeep | image_builder.py:156-193 | aliases no stage publishes keep their images |
| Builder.OneStage | image_builder.py:161-162 | the log, images and files of a one-stage variant are one stage's |
| Builder.ThreeStages | image_builder.py:177-182 | `all` runs dev, appci, core-tests in that order, and stops after the first failed publication |
| Builder.ImageBuilder.constructor | image_builder.py:17-24 | the instance name is `InstanceName(release, distribution)` |
| Builder.ImageBuilder.Clear | image_builder.py:38-45 | the instance no longer exists, and images and host files are untouched; the log is `ClearLog` of its prior state (list; when present, list and info, stop only when running, delete) |
| Builder.ImageBuilder.Start | image_builder.py:29-36 | `clear`, launch the base (default `images:debian/<dv>`), `dhclient eth0`; afterwards the instance is running |
| Builder.ImageBuilder.PutFile | image_builder.py:85-87 | logs one file push into the instance |
| Builder.ImageBuilder.Run | image_builder.py:89-90 | needs the instance running; logs `ls -lah` in the instance |
| Builder.ImageBuilder.RunScript | image_builder.py:92-107 | needs the instance running (its commands go through `incus exec`); push the recipes, run the recipe command, remove the recipes; nothing else changes |
| Builder.ImageBuilder.Publish | image_builder.py:47-83 | needs the instance running, as slimify runs through `incus exec`. Slimify comes first. It fails with the `arch` message iff the machine is unknown, and then publishes nothing. Otherwise the alias names exactly the new image with its five properties, and the previous image of that alias is gone. The import runs iff there is a repository. The instance is stopped for the publication and runs again afterwards |
| Builder.ImageBuilder.RunStage | image_builder.py:161-162 | needs the instance running; one `run_script` then one `publish`, with the log of a stage that found the instance running |
| Builder.ImageBuilder.Build | image_builder.py:156-195 | one run of `main` for a variant. It passes iff the architecture is known. On success, images and files are the stages' and the final `clear` leaves no instance. On failure the run stops at the failed publication with the instance left running. Log = `BuildLog` |
| Builder.ImageBuilder.Branch | image_builder.py:156-193 | the variant's branch of `main` |
| Builder.ImageBuilder.BuildAndLintBranch | image_builder.py:156-162 | start from Debian, push the runner package, build_and_lint, publish `build-and-lint` |
| Builder.ImageBuilder.BeforeInstallBranch | image_builder.py:164-170 | start from Debian, push the runner package, before_install, publish `before-install` |
| Builder.ImageBuilder.AllBranch | image_builder.py:172-182 | start from Debian, push the runner package, then dev, appci and core-tests in order |
| Builder.ImageBuilder.AppciOnlyBranch | image_builder.py:184-188 | start from the local `dev` image, appci, publish `appci` |
| Builder.ImageBuilder.DemoBranch | image_builder.py:190-193 | start from the local `before-install` image, demo, publish `demo` |
| Builder.ImageBuilder.ReplaceImage | image_builder.py:57-59 | the alias no longer names an image; deletes only when one exists |
| Builder.ImageBuilder.StopForPublish | image_builder.py:61-63 | `should_restart` is true iff the instance was running; afterwards it is stopped |
| Builder.ImageBuilder.PublishAs | image_builder.py:57-83 | the part of `publish` after the architecture is known: replace, stop, publish, import, then restart |
| Builder.ImageBuilder.ImportIfRepository | image_builder.py:76-78 | imports (export, add, unlink) iff a repository was given |
| Builder.ImageBuilder.ImportInto | image_builder.py:77-78 | `import_from_incus(alias, alias)` with the cache `images/` beside the scripts |
| Builder.ImageBuilder.RestartIf | image_builder.py:80-83 | starts the instance and runs `dhclient eth0` iff it was stopped for publishing |

## Left out

- Subprocess handling is not modelled: spawning, streaming output and the line loop of
  `_run_logged_prefixed`, and `os.sync`. Commands are entries in `Engine.log`.
- The engine's commands always succeed. The exit-status rule is stated as `CheckExit`, and
  `ExecFailureNamesCommand` gives the error an `incus exec` raises. No engine method takes an
  exit status, so a build aborted by a failing command is not modelled. The only failure modelled in a run is an unknown host architecture.
- `yaml.safe_load` and `json.load` are not modelled. Listings and catalogs are parsed values
  given to the model; `ListingsAgreeWithEngine` says when a listing describes the engine.
- The effect of `incus-simplestreams add` and `remove` on the catalog and the files is not
  modelled, because that tool is external. Their invocations are logged, and the catalog each
  step reads is a parameter. An `add` that fails does not stop the import, just as its status
  is not looked at in the source.
- `datetime.now()` and the `%Y%m%d` formatting are not modelled; the formatted date of each
  publication is the parameter `clock`.
- Logging and `print`, `argparse`, the `log` option of `ImageBuilder`, and directory creation
  in `SimpleStreams.__init__` are left out; none of them changes the state that is modelled.
- `Path` normalisation is not modelled: paths are strings joined with `/`, and `file not in
  images` compares them as strings.
- The order in which `iterdir` yields the entries of `images/` is not fixed; `PruneImages`
  picks any remaining entry. A missing `images/` directory, which raises in Python, is not
  modelled.
- Streams.SimpleStreams.PruneImages: `Engine.Entries` yields only files. A subdirectory of
  `images/` that the catalog does not reference makes `file.unlink()` raise and ends the scan
  in Python. The model skips such an entry instead, because the host holds only a set of files
  and no directories.
- Builder.ImageBuilder.Build: requires the local base image of `appci-only` and `demo` to exist.
  Without it `incus launch` fails, and command failures are not modelled.
- A guaranteed teardown on failure is not modelled, because the code has none. After a failed
  publication, `main` raises before `clear`, and `Build` states that the instance is left
  running.
- The `SCRIPT_DIR` resolution is not modelled; the scripts' directory is a parameter.
