/** What the resolution step asks of the machine it runs on: GPU availability, a fresh
    temporary directory, and a read-only view of the file system. */
module Host {

  /** One tuple `(root, dirs, files)` produced by a top-down directory walk. */
  datatype WalkEntry = WalkEntry(root: string, dirs: seq<string>, files: seq<string>)

  /** The environment of one resolution run.
      - `gpuAvailable`: the answer of the CUDA availability query;
      - `tempDirName`: the name of the temporary directory created when no save
        directory is given;
      - `existing`: the paths for which an existence test succeeds;
      - `directories`: the paths for which a directory test succeeds;
      - `walks`: the entries a directory walk yields for each top directory. */
  datatype Env = Env(
    gpuAvailable: bool,
    tempDirName: string,
    existing: set<string>,
    directories: set<string>,
    walks: map<string, seq<WalkEntry>>)

  /** The entries of a top-down walk from `top`. A walk from a path the environment
      knows nothing about yields nothing, as a walk of a missing directory does. */
  function Walk(env: Env, top: string): seq<WalkEntry> {
    if top in env.walks then env.walks[top] else []
  }

  /** A directory walk is well formed when it starts at its own top and exists exactly
      for directories. */
  predicate WellFormed(env: Env) {
    && (forall top :: top in env.walks && env.walks[top] != [] ==> env.walks[top][0].root == top)
    && (forall top :: top in env.directories ==> top in env.walks && env.walks[top] != [])
    && env.directories <= env.existing
  }

  predicate IsAbsolute(p: string) {
    |p| > 0 && p[0] == '/'
  }

  /** Two-argument POSIX path join: an absolute second part replaces the first,
      otherwise the parts are joined with one separator. */
  function Join(a: string, b: string): (r: string)
    ensures IsAbsolute(b) ==> r == b
    ensures !IsAbsolute(b) ==> |a| <= |r| && r[..|a|] == a
    ensures |b| <= |r| <= |a| + |b| + 1 && r[|r| - |b|..] == b
    ensures !IsAbsolute(b) && a != "" ==> r[|a| - 1] == '/' || (|r| > |a| && r[|a|] == '/')
  {
    if IsAbsolute(b) then b
    else if a == "" || a[|a| - 1] == '/' then a + b
    else a + "/" + b
  }
}
