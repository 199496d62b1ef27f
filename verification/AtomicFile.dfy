/**
 How the agent replaces a file: it writes a temporary one next to it and renames it over the old
 one. A crash may happen between any two steps, and any step may fail.
 */
module AtomicFile {
  import opened Prelude

  type Name = string

  class Directory<T> {
    var files: map<Name, T>
    // Every state the directory has been in, which is what a crash leaves behind.
    ghost var past: seq<map<Name, T>>

    method Write(name: Name, text: T)
      modifies this
      ensures files == old(files)[name := text] && past == old(past) + [files]
    {
      files := files[name := text];
      past := past + [files];
    }

    // `os.replace`
    method Replace(from: Name, to: Name)
      requires from in files
      modifies this
      ensures files == old(files)[to := old(files)[from]] - {from} && past == old(past) + [files]
    {
      files := files[to := files[from]] - {from};
      past := past + [files];
    }

    method Unlink(name: Name)
      modifies this
      ensures files == old(files) - {name} && past == old(past) + [files]
    {
      files := files - {name};
      past := past + [files];
    }
  }

  // The directory shows its old content next to the temporary file.
  ghost predicate OnlyAdds<T>(files: map<Name, T>, before: map<Name, T>, temporary: Name) {
    forall name :: name != temporary ==>
      (name in files <==> name in before) && (name in files ==> files[name] == before[name])
  }

  // Every state from `since` on is `before` next to the temporary file.
  ghost predicate OnlyAddsSince<T>(past: seq<map<Name, T>>, since: nat, before: map<Name, T>, temporary: Name) {
    forall k :: since <= k < |past| ==> OnlyAdds(past[k], before, temporary)
  }

  // The states a call went through, up to the one in which the new file took its place.
  ghost function Underway<T>(past: seq<map<Name, T>>, saved: bool): seq<map<Name, T>> {
    if saved && past != [] then past[..|past| - 1] else past
  }

  // The body of the `with` block, on a temporary file just made: its mode, the writes, the flush.
  // `stages` is what the file holds after each write; `failsAt` counts the steps that go well.
  method Fill<T>(dir: Directory<T>, temporary: Name, stages: seq<T>, failsAt: nat, ghost before: map<Name, T>)
    returns (filled: bool)
    requires stages != [] && failsAt > 0 && temporary in dir.files && OnlyAdds(dir.files, before, temporary)
    modifies dir
    ensures filled <==> failsAt > |stages| + 2
    ensures temporary in dir.files && OnlyAdds(dir.files, before, temporary)
    ensures filled ==> dir.files[temporary] == stages[|stages| - 1]
    ensures old(dir.past) <= dir.past && OnlyAddsSince(dir.past, |old(dir.past)|, before, temporary)
  {
    if failsAt == 1 {
      return false;
    }
    var i := 0;
    while i < |stages|
      invariant 0 <= i <= |stages| && failsAt >= i + 2
      invariant temporary in dir.files && OnlyAdds(dir.files, before, temporary)
      invariant i > 0 ==> dir.files[temporary] == stages[i - 1]
      invariant old(dir.past) <= dir.past && OnlyAddsSince(dir.past, |old(dir.past)|, before, temporary)
    {
      if failsAt == i + 2 {
        return false;
      }
      dir.Write(temporary, stages[i]);
      i := i + 1;
    }
    filled := failsAt > |stages| + 2;
  }

  // The whole replacement: the temporary file made empty, filled, and renamed, or unlinked when
  // anything raises.
  method Save<T>(dir: Directory<T>, target: Name, temporary: Name, empty: T, stages: seq<T>, failsAt: nat)
    returns (saved: bool)
    requires stages != [] && temporary !in dir.files && temporary != target
    modifies dir
    ensures saved <==> failsAt > |stages| + 3
    ensures dir.files == if saved then old(dir.files)[target := stages[|stages| - 1]] else old(dir.files)
    ensures old(dir.past) <= dir.past
    ensures saved ==> |dir.past| > |old(dir.past)| && dir.past[|dir.past| - 1] == dir.files
    ensures OnlyAddsSince(Underway(dir.past, saved), |old(dir.past)|, old(dir.files), temporary)
  {
    if failsAt == 0 {
      return false;
    }
    dir.Write(temporary, empty);
    var filled := Fill(dir, temporary, stages, failsAt, old(dir.files));
    saved := filled && failsAt > |stages| + 3;
    if saved {
      dir.Replace(temporary, target);
    } else {
      dir.Unlink(temporary);
    }
  }

  // What a reader of `target` finds in any of those states.
  lemma TargetStays<T>(past: seq<map<Name, T>>, since: nat, before: map<Name, T>, temporary: Name, target: Name, k: nat)
    requires OnlyAddsSince(past, since, before, temporary) && since <= k < |past| && temporary != target
    ensures target in past[k] <==> target in before
    ensures target in past[k] ==> past[k][target] == before[target]
  {
    assert OnlyAdds(past[k], before, temporary);
  }
}
