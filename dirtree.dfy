/**
 * A project directory as a tree, and `os.walk` over it: top-down, each directory once,
 * sub-directories in listing order. A caller that prunes `dirs` in place (as
 * `dirs[:] = [...]` does) is modelled by the `keep` test on sub-directory names.
 */
module DirTree {
  import opened PyText

  /** A regular file: its name, its size in bytes and its text */
  datatype FileInfo = FileInfo(name: string, size: nat, content: string)

  datatype Node = File(info: FileInfo) | Folder(name: string, children: seq<Node>)

  /**
   * One `(root, dirs, files)` triple of `os.walk`: the directory as path components below
   * the top, the sub-directories kept after pruning, and the files.
   */
  datatype Step = Step(path: seq<string>, dirs: seq<string>, files: seq<FileInfo>)

  /** The test that keeps every directory (a walk without pruning) */
  predicate KeepAll(name: string) {
    true
  }

  /** The names of the sub-directories the walk descends into */
  function FolderNames(ns: seq<Node>, keep: string -> bool): (r: seq<string>)
    ensures forall i :: 0 <= i < |r| ==> keep(r[i])
  {
    if ns == [] then []
    else (if ns[0].Folder? && keep(ns[0].name) then [ns[0].name] else []) + FolderNames(ns[1..], keep)
  }

  /** The files directly inside a directory */
  function FilesOf(ns: seq<Node>): seq<FileInfo> {
    if ns == [] then []
    else (if ns[0].File? then [ns[0].info] else []) + FilesOf(ns[1..])
  }

  /** `os.walk` of the directory at `path` whose entries are `ns` */
  function Walk(path: seq<string>, ns: seq<Node>, keep: string -> bool): seq<Step>
    decreases ns, 1
  {
    [Step(path, FolderNames(ns, keep), FilesOf(ns))] + WalkChildren(path, ns, keep)
  }

  /** The walks of the kept sub-directories among `ns`, one after another */
  function WalkChildren(path: seq<string>, ns: seq<Node>, keep: string -> bool): seq<Step>
    decreases ns, 0
  {
    if ns == [] then []
    else
      (if ns[0].Folder? && keep(ns[0].name) then Walk(path + [ns[0].name], ns[0].children, keep) else [])
      + WalkChildren(path, ns[1..], keep)
  }

  /** The walk of a whole project: the top directory has no components. */
  function WalkTop(ns: seq<Node>, keep: string -> bool): (steps: seq<Step>)
    ensures steps != [] && steps[0].path == []
  {
    Walk([], ns, keep)
  }

  /** Every step lies below the directory walked, through kept directories only. */
  ghost predicate BelowThrough(steps: seq<Step>, path: seq<string>, keep: string -> bool) {
    forall s :: 0 <= s < |steps| ==>
      && |path| <= |steps[s].path|
      && steps[s].path[..|path|] == path
      && forall i :: |path| <= i < |steps[s].path| ==> keep(steps[s].path[i])
  }

  lemma {:induction false} WalkStaysBelow(path: seq<string>, ns: seq<Node>, keep: string -> bool)
    ensures BelowThrough(Walk(path, ns, keep), path, keep)
    decreases ns, 1
  {
    WalkChildrenStaysBelow(path, ns, keep);
  }

  lemma {:induction false} WalkChildrenStaysBelow(path: seq<string>, ns: seq<Node>, keep: string -> bool)
    ensures BelowThrough(WalkChildren(path, ns, keep), path, keep)
    decreases ns, 0
  {
    if ns != [] {
      WalkChildrenStaysBelow(path, ns[1..], keep);
      if ns[0].Folder? && keep(ns[0].name) {
        var sub := path + [ns[0].name];
        WalkStaysBelow(sub, ns[0].children, keep);
        var w := Walk(sub, ns[0].children, keep);
        forall s | 0 <= s < |w|
          ensures |path| <= |w[s].path| && w[s].path[..|path|] == path
          ensures forall i :: |path| <= i < |w[s].path| ==> keep(w[s].path[i])
        {
          assert w[s].path[..|sub|] == sub;
          assert w[s].path[..|path|] == sub[..|path|];
          assert w[s].path[|path|] == ns[0].name;
        }
      }
    }
  }

  /** Pruned directories are never entered: every directory a walk visits passed `keep`. */
  lemma WalkTopKept(ns: seq<Node>, keep: string -> bool, s: nat, i: nat)
    requires s < |WalkTop(ns, keep)| && i < |WalkTop(ns, keep)[s].path|
    ensures keep(WalkTop(ns, keep)[s].path[i])
  {
    WalkStaysBelow([], ns, keep);
  }

  /** The walks of sub-directories lie strictly below the directory walked. */
  lemma {:induction false} WalkChildrenDeeper(path: seq<string>, ns: seq<Node>, keep: string -> bool)
    ensures forall s :: 0 <= s < |WalkChildren(path, ns, keep)| ==> |path| < |WalkChildren(path, ns, keep)[s].path|
    decreases ns
  {
    if ns != [] {
      WalkChildrenDeeper(path, ns[1..], keep);
      if ns[0].Folder? && keep(ns[0].name) {
        WalkStaysBelow(path + [ns[0].name], ns[0].children, keep);
      }
    }
  }

  /** Only the first step of a walk is the top directory itself. */
  lemma WalkTopDeeper(ns: seq<Node>, keep: string -> bool)
    ensures forall s :: 1 <= s < |WalkTop(ns, keep)| ==> WalkTop(ns, keep)[s].path != []
  {
    WalkChildrenDeeper([], ns, keep);
    assert WalkTop(ns, keep)[1..] == WalkChildren([], ns, keep);
  }

  /** The number of sub-directories the steps report, summed */
  function SumDirs(steps: seq<Step>): nat {
    if steps == [] then 0 else |steps[0].dirs| + SumDirs(steps[1..])
  }

  lemma {:induction false} SumDirsAppend(a: seq<Step>, b: seq<Step>)
    ensures SumDirs(a + b) == SumDirs(a) + SumDirs(b)
  {
    if a == [] {
      assert a + b == b;
    } else {
      assert (a + b)[1..] == a[1..] + b;
      SumDirsAppend(a[1..], b);
    }
  }

  /**
   * Each directory below the top is reported once in its parent's `dirs` and visited
   * once: the walk has one step more than the sub-directories it reports.
   */
  lemma {:induction false} WalkCount(path: seq<string>, ns: seq<Node>, keep: string -> bool)
    ensures |Walk(path, ns, keep)| == 1 + SumDirs(Walk(path, ns, keep))
    decreases ns, 1
  {
    var w := Walk(path, ns, keep);
    WalkChildrenCount(path, ns, keep);
    assert w[1..] == WalkChildren(path, ns, keep);
  }

  lemma {:induction false} WalkChildrenCount(path: seq<string>, ns: seq<Node>, keep: string -> bool)
    ensures |WalkChildren(path, ns, keep)| == |FolderNames(ns, keep)| + SumDirs(WalkChildren(path, ns, keep))
    decreases ns, 0
  {
    if ns != [] {
      WalkChildrenCount(path, ns[1..], keep);
      var head := if ns[0].Folder? && keep(ns[0].name) then Walk(path + [ns[0].name], ns[0].children, keep) else [];
      if ns[0].Folder? && keep(ns[0].name) {
        WalkCount(path + [ns[0].name], ns[0].children, keep);
      }
      SumDirsAppend(head, WalkChildren(path, ns[1..], keep));
    }
  }
}
