/**
  Removing a policy from the local store. After the file, the directories it leaves empty are removed
  too, from the innermost outwards, up to the root of the store.

  A path is the sequence of its components, of which the first is the file system root; the parent of
  a path is the path without its last component.
 */
module StoreCleanup {

  type Path = seq<string>

  datatype FileSystem = FileSystem(files: set<Path>, dirs: set<Path>)

  predicate Inside(dir: Path, p: Path) {
    |p| == |dir| + 1 && p[..|dir|] == dir
  }

  predicate HoldsNothing(fs: FileSystem, dir: Path) {
    (forall p :: p in fs.files ==> !Inside(dir, p)) && (forall p :: p in fs.dirs ==> !Inside(dir, p))
  }

  predicate IsEmptyDir(fs: FileSystem, dir: Path) {
    dir in fs.dirs && HoldsNothing(fs, dir)
  }

  /** `remove_dir` takes a directory away if it is empty and the system lets it. */
  function RemoveDir(fs: FileSystem, dir: Path, permitted: Path -> bool): FileSystem {
    if IsEmptyDir(fs, dir) && permitted(dir) then fs.(dirs := fs.dirs - {dir}) else fs
  }

  /** Extending a path with one component; an absolute one starts over. */
  function JoinPath(base: Path, component: string): Path {
    if component == "/" then ["/"] else base + [component]
  }

  predicate Absolute(p: Path) {
    p != [] && p[0] == "/" && forall i :: 0 < i < |p| ==> p[i] != "/"
  }

  datatype Result = Removed | PolicyMissing | CouldNotDelete

  /** Removes the policy file at `policy` and then tries its directories. Returns what it tried, in order. */
  method Rm(fs: FileSystem, root: Path, policy: Path, deletable: bool, permitted: Path -> bool)
    returns (result: Result, after: FileSystem, tried: seq<Path>)
    requires Absolute(root) && Absolute(policy) && root < policy
    ensures result == PolicyMissing <==> policy !in fs.files && policy !in fs.dirs
    ensures result == Removed <==> policy in fs.files && deletable
    ensures result != Removed ==> after == fs && tried == []
    ensures result == Removed ==> after == Swept(FileSystem(fs.files - {policy}, fs.dirs), tried, permitted)
    ensures result == Removed ==>
              |tried| == |policy| - |root| && forall k :: 0 <= k < |tried| ==> tried[k] == policy[..|policy| - 1 - k]
  {
    if policy !in fs.files && policy !in fs.dirs {
      return PolicyMissing, fs, [];
    }
    if policy !in fs.files || !deletable {
      return CouldNotDelete, fs, [];
    }
    after := FileSystem(fs.files - {policy}, fs.dirs);
    ghost var start := after;
    var prefixes: seq<Path> := [];
    var prefix := root;
    for i := 0 to |policy|
      invariant |prefixes| == i && (i > 0 ==> prefix == policy[..i])
      invariant forall k :: 0 <= k < i ==> prefixes[k] == policy[..k + 1]
    {
      prefix := JoinPath(prefix, policy[i]);
      assert prefix == policy[..i + 1];
      prefixes := prefixes + [prefix];
    }
    tried := [];
    var count := |prefixes| - |root|;
    for k := 0 to count
      invariant |tried| == k && forall j :: 0 <= j < k ==> tried[j] == policy[..|policy| - 1 - j]
      invariant after == Swept(start, tried, permitted)
    {
      var dir := prefixes[|prefixes| - 2 - k];
      assert (tried + [dir])[..|tried|] == tried;
      after := RemoveDir(after, dir, permitted);
      tried := tried + [dir];
    }
    result := Removed;
  }

  /** Trying to remove directories one after the other. */
  function Swept(fs: FileSystem, dirs: seq<Path>, permitted: Path -> bool): FileSystem {
    if dirs == [] then fs else RemoveDir(Swept(fs, dirs[..|dirs| - 1], permitted), dirs[|dirs| - 1], permitted)
  }

  /** The directories above a path, innermost first, down to a given length. */
  ghost predicate Upwards(dirs: seq<Path>, p: Path) {
    |dirs| < |p| && forall k :: 0 <= k < |dirs| ==> dirs[k] == p[..|p| - 1 - k]
  }

  /** Sweeping removes no files, no directory it was not told to try, and none that still holds something. */
  lemma {:induction false} SweepIsModest(fs: FileSystem, dirs: seq<Path>, permitted: Path -> bool)
    ensures var after := Swept(fs, dirs, permitted);
            && after.files == fs.files && after.dirs <= fs.dirs
            && (forall d :: d in fs.dirs && d !in after.dirs ==> d in dirs)
            && (forall d :: d in fs.dirs && d !in after.dirs ==> HoldsNothing(after, d))
  {
    if dirs != [] {
      var before := Swept(fs, dirs[..|dirs| - 1], permitted);
      SweepIsModest(fs, dirs[..|dirs| - 1], permitted);
      var after := Swept(fs, dirs, permitted);
      forall d | d in fs.dirs && d !in after.dirs ensures HoldsNothing(after, d) {
        assert d !in before.dirs || IsEmptyDir(before, d);
      }
    }
  }

  /** Sweeping upwards, each directory tried is gone or still holds something afterwards. */
  lemma {:induction false} SweepLeavesNoEmpty(fs: FileSystem, dirs: seq<Path>, p: Path, permitted: Path -> bool)
    requires Upwards(dirs, p) && forall d :: d in dirs ==> permitted(d)
    ensures forall k :: 0 <= k < |dirs| ==> !IsEmptyDir(Swept(fs, dirs, permitted), dirs[k])
  {
    if dirs != [] {
      var last := |dirs| - 1;
      var before, dir := Swept(fs, dirs[..last], permitted), dirs[last];
      SweepLeavesNoEmpty(fs, dirs[..last], p, permitted);
      var after := RemoveDir(before, dir, permitted);
      assert dir in dirs;
      forall k | 0 <= k < last ensures !IsEmptyDir(after, dirs[k]) {
        assert !IsEmptyDir(before, dirs[..last][k]);
        assert |dirs[k]| > |dir|;
        if dirs[k] in after.dirs {
          Occupied(before, dir, permitted, dirs[k]);
        }
      }
    }
  }

  /** Taking away one directory does not empty a longer path. */
  lemma Occupied(fs: FileSystem, dir: Path, permitted: Path -> bool, longer: Path)
    requires |longer| >= |dir| && longer in fs.dirs && !IsEmptyDir(fs, longer)
    ensures !IsEmptyDir(RemoveDir(fs, dir, permitted), longer)
  {
    assert !Inside(longer, dir);
  }

  /** The whole removal: exactly one file goes; the directories tried are those from the policy's parent up
      to and including the root of the store, never above it; nothing else goes; and when empty
      directories can be removed none is left on that path. */
  lemma RemovalIsExact(fs: FileSystem, root: Path, policy: Path, tried: seq<Path>, permitted: Path -> bool)
    requires Absolute(root) && Absolute(policy) && root < policy && policy in fs.files
    requires |tried| == |policy| - |root| && forall k :: 0 <= k < |tried| ==> tried[k] == policy[..|policy| - 1 - k]
    ensures var after := Swept(FileSystem(fs.files - {policy}, fs.dirs), tried, permitted);
            && fs.files - after.files == {policy} && after.files <= fs.files && after.dirs <= fs.dirs
            && (forall d :: d in fs.dirs && d !in after.dirs ==> root <= d < policy)
            && (forall d, p :: d in fs.dirs && d !in after.dirs && (p in after.files || p in after.dirs) ==>
                  !(|p| == |d| + 1 && p[..|d|] == d))
            && ((forall d :: d in tried ==> permitted(d)) ==>
                  forall d :: root <= d < policy ==> !IsEmptyDir(after, d))
  {
    var start := FileSystem(fs.files - {policy}, fs.dirs);
    SweepIsModest(start, tried, permitted);
    if forall d :: d in tried ==> permitted(d) {
      SweepLeavesNoEmpty(start, tried, policy, permitted);
      forall d | root <= d < policy ensures !IsEmptyDir(Swept(start, tried, permitted), d) {
        assert d == tried[|policy| - 1 - |d|];
      }
    }
  }
}
