/** Inside the session manager's `_save`: the manifest as a file that is replaced atomically. */
module ManifestFile {
  import opened Prelude
  import opened SessionLifecycle
  import opened AtomicFile
  import SessionHistory

  // A JSON array as far as it has been written; only a closed one can be parsed.
  datatype Text = Text(items: seq<Record>, closed: bool)

  // What `_load` gets to see.
  function Read(files: map<Name, Text>, name: Name): Option<seq<Record>> {
    if name in files && files[name].closed then Some(files[name].items) else None
  }

  // One write per record, then the closing one.
  function Stages(items: seq<Record>): seq<Text> {
    seq(|items| + 1, i requires 0 <= i <= |items| => Text(if i < |items| then items[..i + 1] else items, i == |items|))
  }

  // Saving well kept sessions: whenever the process dies, a restart loads the sessions of the last
  // save or the new ones, and a save that fails by itself leaves the directory as it was.
  method SaveSessions(dir: Directory<Text>, manifest: Name, temporary: Name, sessions: Sessions, failsAt: nat)
    returns (saved: bool)
    requires temporary !in dir.files && temporary != manifest && WellKept(sessions)
    modifies dir
    ensures saved <==> failsAt > |sessions.order| + 4
    ensures !saved ==> dir.files == old(dir.files)
    ensures saved ==> LoadFile(Read(dir.files, manifest)) == sessions
    ensures old(dir.past) <= dir.past
    ensures forall k :: |old(dir.past)| <= k < |dir.past|
              ==> LoadFile(Read(dir.past[k], manifest)) == (if saved && k == |dir.past| - 1 then sessions
                                                            else old(LoadFile(Read(dir.files, manifest))))
  {
    ghost var before := dir.files;
    saved := Save(dir, manifest, temporary, Text([], false), Stages(Dump(sessions)), failsAt);
    SessionHistory.RoundTrip(sessions);
    forall k | |old(dir.past)| <= k < |dir.past| && !(saved && k == |dir.past| - 1)
      ensures Read(dir.past[k], manifest) == Read(before, manifest)
    {
      TargetStays(Underway(dir.past, saved), |old(dir.past)|, before, temporary, manifest, k);
    }
  }
}
