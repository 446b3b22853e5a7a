/**
 * The one-off migration script that moves resource files into the folder of
 * their type and rewrites the stored `filePath` to match.
 */
module FixResources {
  import opened Values
  import opened Strings
  import Uploads

  type Resource = Uploads.Resource

  /** `correctFolder`: the folder for the three resource types, `null` for anything else. */
  function FolderFor(kind: string): (r: Option<string>)
    ensures kind == "audio" ==> r == Some("audio")
    ensures kind == "video" ==> r == Some("video")
    ensures kind == "article" ==> r == Some("pdfarticle")
    ensures r.None? <==> kind !in {"audio", "video", "article"}
  {
    if kind == "audio" then Some("audio")
    else if kind == "video" then Some("video")
    else if kind == "article" then Some("pdfarticle")
    else None
  }

  /** The file exists and its path does not already name the type's folder. */
  predicate NeedsMove(r: Resource, files: set<string>)
  {
    FolderFor(r.kind).Some? && r.filePath in files && !Contains(r.filePath, "/" + FolderFor(r.kind).value + "/")
  }

  /** `backend/uploads/<folder>/<basename of the old path>`. */
  function MovedPath(filePath: string, folder: string): (r: string)
    ensures Contains(r, "/" + folder + "/")
    ensures r == "backend/uploads" + ("/" + folder + "/") + Basename(filePath)
  {
    var r := "backend/uploads" + ("/" + folder + "/") + Basename(filePath);
    ContainsMiddle("backend/uploads", "/" + folder + "/", Basename(filePath));
    r
  }

  /** What can go wrong with one resource: the rename throws, or the save after it does. */
  datatype Fault = NoFault | RenameFails | SaveFails

  /** `fs.renameSync(from, to)` on the set of existing files. */
  function Rename(files: set<string>, from: string, to: string): (r: set<string>)
    ensures to in r && forall f :: f in files && f != from ==> f in r
    ensures from != to ==> from !in r
    ensures forall f :: f in r ==> f == to || (f in files && f != from)
  {
    files - {from} + {to}
  }

  /** The files on disk and the stored resources. */
  datatype Store = Store(files: set<string>, db: seq<Resource>)

  /** One iteration of the loop, on resource `i`. */
  function Step(s: Store, i: nat, fault: Fault): (r: Store)
    requires i < |s.db|
    ensures |r.db| == |s.db|
    ensures forall k :: 0 <= k < |s.db| && k != i ==> r.db[k] == s.db[k]
    ensures !NeedsMove(s.db[i], s.files) || fault == RenameFails ==> r == s
    ensures NeedsMove(s.db[i], s.files) && fault != RenameFails ==>
      var target := MovedPath(s.db[i].filePath, FolderFor(s.db[i].kind).value);
      r.files == Rename(s.files, s.db[i].filePath, target) &&
      r.db[i] == (if fault == SaveFails then s.db[i] else s.db[i].(filePath := target))
  {
    var res := s.db[i];
    if !NeedsMove(res, s.files) || fault == RenameFails then s
    else
      var target := MovedPath(res.filePath, FolderFor(res.kind).value);
      var files := Rename(s.files, res.filePath, target);
      if fault == SaveFails then Store(files, s.db)
      else Store(files, s.db[i := res.(filePath := target)])
  }

  /** The first `n` iterations of the loop. */
  function Run(s: Store, faults: seq<Fault>, n: nat): (r: Store)
    requires n <= |faults| && n <= |s.db|
    ensures |r.db| == |s.db|
    ensures forall k :: n <= k < |s.db| ==> r.db[k] == s.db[k]
  {
    if n == 0 then s else Step(Run(s, faults, n - 1), n - 1, faults[n - 1])
  }

  /** `now` is `original` with its path rewritten into the type's folder. */
  predicate Rewritten(original: Resource, now: Resource)
  {
    FolderFor(original.kind).Some? &&
    now == original.(filePath := MovedPath(original.filePath, FolderFor(original.kind).value))
  }

  /** The resource's path already names the folder of its type. */
  predicate InTypeFolder(r: Resource)
  {
    FolderFor(r.kind).Some? && Contains(r.filePath, "/" + FolderFor(r.kind).value + "/")
  }

  /** A rewritten resource is in its type's folder, so it is never moved again, whatever files exist. */
  lemma RewrittenPathIsFinal(original: Resource, now: Resource, files: set<string>)
    requires Rewritten(original, now)
    ensures InTypeFolder(now) && !NeedsMove(now, files)
  {
  }

  /** A resource in its type's folder is left as it is by any iteration. */
  lemma InTypeFolderUnchanged(s: Store, i: nat, fault: Fault)
    requires i < |s.db| && InTypeFolder(s.db[i])
    ensures Step(s, i, fault) == s
  {
  }

  /** After the loop, every resource is either as it was or rewritten into its type's folder. */
  lemma {:induction false} RunOutcome(s: Store, faults: seq<Fault>, n: nat)
    requires n <= |faults| && n <= |s.db|
    ensures forall k :: 0 <= k < |s.db| ==>
      Run(s, faults, n).db[k] == s.db[k] || Rewritten(s.db[k], Run(s, faults, n).db[k])
  {
    if n > 0 {
      RunOutcome(s, faults, n - 1);
    }
  }

  /** A resource in its type's folder survives any run of the loop unchanged. */
  lemma {:induction false} InTypeFolderSurvivesRun(s: Store, faults: seq<Fault>, n: nat, k: nat)
    requires n <= |faults| && n <= |s.db| && k < |s.db| && InTypeFolder(s.db[k])
    ensures Run(s, faults, n).db[k] == s.db[k]
  {
    if n > 0 {
      var prev := Run(s, faults, n - 1);
      InTypeFolderSurvivesRun(s, faults, n - 1, k);
      if n - 1 == k {
        InTypeFolderUnchanged(prev, k, faults[n - 1]);
      }
    }
  }

  /**
   * Running the script a second time changes nothing for the resources the
   * first run rewrote (by `RunOutcome`, all the others it left as they were).
   */
  lemma SecondRunKeepsFixed(s: Store, first: seq<Fault>, second: seq<Fault>)
    requires |first| == |s.db| && |second| == |s.db|
    ensures var once := Run(s, first, |first|);
      forall k :: 0 <= k < |s.db| && Rewritten(s.db[k], once.db[k]) ==> Run(once, second, |second|).db[k] == once.db[k]
  {
    RewrittenSurviveRun(s, Run(s, first, |first|), second);
  }

  lemma RewrittenSurviveRun(s: Store, once: Store, second: seq<Fault>)
    requires |once.db| == |s.db| && |second| == |s.db|
    ensures forall k :: 0 <= k < |s.db| && Rewritten(s.db[k], once.db[k]) ==> Run(once, second, |second|).db[k] == once.db[k]
  {
    forall k | 0 <= k < |s.db| && Rewritten(s.db[k], once.db[k])
      ensures Run(once, second, |second|).db[k] == once.db[k]
    {
      RewrittenSurvivesRun(once, second, k, s.db[k]);
    }
  }

  lemma RewrittenSurvivesRun(s: Store, faults: seq<Fault>, k: nat, original: Resource)
    requires |faults| == |s.db| && k < |s.db| && Rewritten(original, s.db[k])
    ensures Run(s, faults, |faults|).db[k] == s.db[k]
  {
    RewrittenPathIsFinal(original, s.db[k], s.files);
    InTypeFolderSurvivesRun(s, faults, |faults|, k);
  }

  /** A type without a folder is skipped. */
  lemma UnknownTypeSkipped(s: Store, i: nat, fault: Fault)
    requires i < |s.db| && FolderFor(s.db[i].kind).None?
    ensures Step(s, i, fault) == s
  {
  }

  /**
   * A failed save leaves the stored path pointing at the old location although
   * the file has been moved away from it.
   */
  lemma SaveFailureLeavesStalePath(s: Store, i: nat)
    requires i < |s.db| && NeedsMove(s.db[i], s.files)
    requires s.db[i].filePath != MovedPath(s.db[i].filePath, FolderFor(s.db[i].kind).value)
    ensures Step(s, i, SaveFails).db[i] == s.db[i]
    ensures s.db[i].filePath !in Step(s, i, SaveFails).files
  {
  }

  /** The script's state: what is on disk and what the database holds. */
  class Migration {
    var files: set<string>
    var resources: seq<Resource>

    constructor(files: set<string>, resources: seq<Resource>)
      ensures this.files == files && this.resources == resources
    {
      this.files := files;
      this.resources := resources;
    }

    /**
     * `fixPaths`: every resource is visited once, in order; a failure on one is
     * caught and the loop goes on with the next.
     */
    method FixPaths(faults: seq<Fault>)
      requires |faults| == |resources|
      modifies this
      ensures Store(files, resources) == Run(Store(old(files), old(resources)), faults, |faults|)
    {
      ghost var start := Store(files, resources);
      for i := 0 to |faults|
        invariant |resources| == |faults|
        invariant Store(files, resources) == Run(start, faults, i)
      {
        var res := resources[i];
        var folder := FolderFor(res.kind);
        if folder.None? {
          continue;
        }
        if res.filePath in files && !Contains(res.filePath, "/" + folder.value + "/") {
          if faults[i] != RenameFails {
            var target := MovedPath(res.filePath, folder.value);
            files := Rename(files, res.filePath, target);
            if faults[i] != SaveFails {
              resources := resources[i := res.(filePath := target)];
            }
          }
        }
      }
    }
  }
}
