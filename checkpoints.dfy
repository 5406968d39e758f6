/** Checkpoint discovery: the paths of every file named `model.pt` that a walk of the
    checkpoint directory yields, in walk order. */
module Checkpoints {
  import opened Host

  const ModelFileName: string := "model.pt"

  /** The checkpoint paths contributed by one walk entry, in the order of its files. */
  function EntryCheckpoints(root: string, files: seq<string>): seq<string>
    decreases |files|
  {
    if files == [] then []
    else
      var rest := EntryCheckpoints(root, files[..|files| - 1]);
      if files[|files| - 1] == ModelFileName then rest + [Join(root, ModelFileName)] else rest
  }

  /** The checkpoint paths of a whole walk, entry after entry. */
  function CheckpointPaths(walk: seq<WalkEntry>): seq<string>
    decreases |walk|
  {
    if walk == [] then []
    else
      var last := walk[|walk| - 1];
      CheckpointPaths(walk[..|walk| - 1]) + EntryCheckpoints(last.root, last.files)
  }

  /** How many files named `model.pt` the walk lists, counted with multisets. */
  function ModelFileCount(walk: seq<WalkEntry>): nat
    decreases |walk|
  {
    if walk == [] then 0
    else ModelFileCount(walk[..|walk| - 1]) + multiset(walk[|walk| - 1].files)[ModelFileName]
  }

  /** Some entry of the walk lists a file named `model.pt`. */
  predicate HasModelFile(walk: seq<WalkEntry>) {
    exists i :: 0 <= i < |walk| && ModelFileName in walk[i].files
  }

  /** Looking at one more file of an entry appends its path when it is `model.pt`. */
  lemma EntryCheckpointsStep(root: string, files: seq<string>, j: nat)
    requires j < |files|
    ensures EntryCheckpoints(root, files[..j + 1]) ==
      EntryCheckpoints(root, files[..j]) + (if files[j] == ModelFileName then [Join(root, ModelFileName)] else [])
  {
    assert files[..j + 1][..j] == files[..j];
  }

  /** Looking at one more entry of a walk appends that entry's paths. */
  lemma CheckpointPathsStep(walk: seq<WalkEntry>, i: nat)
    requires i < |walk|
    ensures CheckpointPaths(walk[..i + 1]) == CheckpointPaths(walk[..i]) + EntryCheckpoints(walk[i].root, walk[i].files)
  {
    assert walk[..i + 1][..i] == walk[..i];
  }

  /** One entry contributes one path per `model.pt` it lists, each the join of its root. */
  lemma {:induction false} EntryCheckpointsShape(root: string, files: seq<string>)
    ensures |EntryCheckpoints(root, files)| == multiset(files)[ModelFileName]
    ensures forall p :: p in EntryCheckpoints(root, files) ==> p == Join(root, ModelFileName)
    decreases |files|
  {
    if files != [] {
      var init := files[..|files| - 1];
      EntryCheckpointsShape(root, init);
      assert files == init + [files[|files| - 1]];
      assert multiset(files) == multiset(init) + multiset{files[|files| - 1]};
    }
  }

  /** The number of checkpoints found is the number of `model.pt` files listed. */
  lemma {:induction false} CheckpointPathsCount(walk: seq<WalkEntry>)
    ensures |CheckpointPaths(walk)| == ModelFileCount(walk)
    decreases |walk|
  {
    if walk != [] {
      var last := walk[|walk| - 1];
      CheckpointPathsCount(walk[..|walk| - 1]);
      EntryCheckpointsShape(last.root, last.files);
    }
  }

  /** No checkpoint is found exactly when no entry lists a `model.pt` file. */
  lemma {:induction false} CheckpointPathsEmptyIff(walk: seq<WalkEntry>)
    ensures CheckpointPaths(walk) == [] <==> !HasModelFile(walk)
    decreases |walk|
  {
    if walk != [] {
      var init, last := walk[..|walk| - 1], walk[|walk| - 1];
      CheckpointPathsEmptyIff(init);
      EntryCheckpointsShape(last.root, last.files);
      assert ModelFileName in last.files <==> multiset(last.files)[ModelFileName] > 0;
      if HasModelFile(walk) && !HasModelFile(init) {
        var i :| 0 <= i < |walk| && ModelFileName in walk[i].files;
        assert i == |walk| - 1;
      }
      if HasModelFile(init) {
        var i :| 0 <= i < |init| && ModelFileName in init[i].files;
        assert walk[i] == init[i];
      }
    }
  }

  /** Every path found is the join of a walked root with `model.pt`, for an entry that
      lists such a file. */
  lemma {:induction false} CheckpointPathsSound(walk: seq<WalkEntry>, p: string)
    requires p in CheckpointPaths(walk)
    ensures exists i :: 0 <= i < |walk| && ModelFileName in walk[i].files && p == Join(walk[i].root, ModelFileName)
    decreases |walk|
  {
    var init, last := walk[..|walk| - 1], walk[|walk| - 1];
    if p in CheckpointPaths(init) {
      CheckpointPathsSound(init, p);
      var i :| 0 <= i < |init| && ModelFileName in init[i].files && p == Join(init[i].root, ModelFileName);
      assert walk[i] == init[i];
    } else {
      EntryCheckpointsShape(last.root, last.files);
      assert ModelFileName in last.files;
    }
  }

  /** Every entry that lists a `model.pt` file contributes its path. */
  lemma {:induction false} CheckpointPathsComplete(walk: seq<WalkEntry>, i: nat)
    requires i < |walk| && ModelFileName in walk[i].files
    ensures Join(walk[i].root, ModelFileName) in CheckpointPaths(walk)
    decreases |walk|
  {
    var init, last := walk[..|walk| - 1], walk[|walk| - 1];
    if i < |init| {
      assert init[i] == walk[i];
      CheckpointPathsComplete(init, i);
    } else {
      EntryCheckpointsShape(last.root, last.files);
      assert multiset(last.files)[ModelFileName] > 0;
      var e := EntryCheckpoints(last.root, last.files);
      assert e[0] in e;
    }
  }

  /** The paths of a walk split in two are those of the first part followed by those of
      the second: discovery keeps the walk order. */
  lemma {:induction false} CheckpointPathsAppend(a: seq<WalkEntry>, b: seq<WalkEntry>)
    ensures CheckpointPaths(a + b) == CheckpointPaths(a) + CheckpointPaths(b)
    decreases |b|
  {
    if b == [] {
      assert a + b == a;
    } else {
      var binit, last := b[..|b| - 1], b[|b| - 1];
      assert (a + b)[..|a + b| - 1] == a + binit;
      assert (a + b)[|a + b| - 1] == last;
      CheckpointPathsAppend(a, binit);
    }
  }

  /** The inner loop of the walk: the paths of one entry's `model.pt` files, in order. */
  method CollectEntryCheckpoints(root: string, files: seq<string>) returns (paths: seq<string>)
    ensures paths == EntryCheckpoints(root, files)
  {
    paths := [];
    assert files[..0] == [];
    for j := 0 to |files|
      invariant paths == EntryCheckpoints(root, files[..j])
    {
      EntryCheckpointsStep(root, files, j);
      if files[j] == ModelFileName {
        paths := paths + [Join(root, files[j])];
      }
    }
    assert files[..|files|] == files;
  }

  /** The outer loop of the walk: every entry's paths, entry after entry. */
  method CollectCheckpoints(walk: seq<WalkEntry>) returns (paths: seq<string>)
    ensures paths == CheckpointPaths(walk)
  {
    paths := [];
    assert walk[..0] == [];
    for i := 0 to |walk|
      invariant paths == CheckpointPaths(walk[..i])
    {
      var found := CollectEntryCheckpoints(walk[i].root, walk[i].files);
      CheckpointPathsStep(walk, i);
      paths := paths + found;
    }
    assert walk[..|walk|] == walk;
  }
}
