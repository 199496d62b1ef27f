/** The agent's configuration file: the text of `AgentConfig`, replaced atomically. */
module ConfigFile {
  import opened Prelude
  import opened AgentConfig
  import opened AtomicFile

  // `load_config`: a missing file is an empty configuration, a malformed one an error.
  function LoadFrom(files: map<Name, string>, path: Name): Option<Config> {
    if path in files then LoadConfig(files[path]) else Some(Config(None, None, None))
  }

  // `save_config`: whenever the process dies, loading gives the old configuration or the new one.
  method SaveConfig(dir: Directory<string>, path: Name, temporary: Name, c: Config, failsAt: nat) returns (saved: bool)
    requires temporary !in dir.files && temporary != path
    modifies dir
    ensures saved <==> failsAt > 4
    ensures dir.files == if saved then old(dir.files)[path := FileText(c)] else old(dir.files)
    ensures old(dir.past) <= dir.past
    ensures forall k :: |old(dir.past)| <= k < |dir.past|
              ==> LoadFrom(dir.past[k], path) == (if saved && k == |dir.past| - 1 then LoadConfig(FileText(c))
                                                  else old(LoadFrom(dir.files, path)))
  {
    ghost var before := dir.files;
    var text := RenderConfig(c);
    saved := Save(dir, path, temporary, "", [text], failsAt);
    forall k | |old(dir.past)| <= k < |dir.past| && !(saved && k == |dir.past| - 1)
      ensures LoadFrom(dir.past[k], path) == LoadFrom(before, path)
    {
      TargetStays(Underway(dir.past, saved), |old(dir.past)|, before, temporary, path, k);
    }
  }
}
