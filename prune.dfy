/**
  The repository pruning script: for a repository, drop the superseded versions of every
  product, then unlink the archives the catalog no longer references.
 */
module PruneScript {
  import Strings
  import Incus
  import Streams

  /**
    `before` is the catalog as the version clean-up reads it; `after` is the catalog as the
    pruning reads it, once the `remove` commands have rewritten it. The image cache is the
    `images` directory beside the script.
   */
  method Prune(engine: Incus.Engine, repository: string, scriptDir: string, before: Streams.Catalog, after: Streams.Catalog)
    modifies engine`log, engine`files
    ensures engine.instances == old(engine.instances) && engine.images == old(engine.images)
    ensures engine.log == old(engine.log) + Streams.RemoveCalls(repository, Streams.Removals(before.products))
    ensures engine.files
         == Streams.AfterPrune(old(engine.files), Streams.ImagesDir(repository), Streams.ImagesPaths(repository, after))
  {
    var ss := new Streams.SimpleStreams(engine, repository, Strings.Child(scriptDir, "images"));
    ss.CleanPreviousVersions(before);
    ss.PruneImages(after);
  }
}
