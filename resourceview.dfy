/** The patient's resource library page: the type filter, the icons and the URL a resource is played from. */
module ResourceView {
  import opened Strings
  import opened Seqs
  import Uploads

  type Resource = Uploads.Resource

  /** `filter === 'all' ? resources : resources.filter(r => r.type === filter)`. */
  function FilterByType(resources: seq<Resource>, filter: string): (r: seq<Resource>)
    ensures filter == "all" ==> r == resources
    ensures filter != "all" ==> forall x :: x in r <==> x in resources && x.kind == filter
    ensures Subsequence(r, resources)
  {
    SelectUnlessAll(resources, filter, Kind)
  }

  function Kind(r: Resource): string
  {
    r.kind
  }

  /** Choosing the same filter again shows the same list. */
  lemma FilterByTypeIdempotent(resources: seq<Resource>, filter: string)
    ensures FilterByType(FilterByType(resources, filter), filter) == FilterByType(resources, filter)
  {
    SelectUnlessAllIdempotent(resources, filter, Kind);
  }

  /** `getResourceIcon(type)`: a fixed icon for the three resource types, the folder icon for anything else. */
  function ResourceIcon(kind: string): (r: string)
    ensures kind == "audio" ==> r == "\U{1F3B5}"
    ensures kind == "video" ==> r == "\U{1F3AC}"
    ensures kind == "article" ==> r == "\U{1F4C4}"
    ensures kind !in {"audio", "video", "article"} ==> r == "\U{1F4C1}"
  {
    if kind == "audio" then "\U{1F3B5}"
    else if kind == "video" then "\U{1F3AC}"
    else if kind == "article" then "\U{1F4C4}"
    else "\U{1F4C1}"
  }

  /** The folder `viewResource` guesses from the type when the stored path has no `uploads/`. */
  function TypeFolder(kind: string): (r: string)
    ensures r in {"audio", "video", "pdfarticle", "profiles"}
    ensures r == "pdfarticle" <==> kind == "article"
    ensures r == "profiles" <==> kind !in {"audio", "video", "article"}
  {
    if kind == "audio" then "audio"
    else if kind == "video" then "video"
    else if kind == "article" then "pdfarticle"
    else "profiles"
  }

  /** `/backend/uploads/<folder>/` for the type's folder. */
  function FolderUrl(kind: string): (r: string)
    ensures |r| >= 9 && StartsWith(r, "/backend/uploads/") && '\\' !in r
  {
    var folder := TypeFolder(kind);
    assert '\\' !in folder;
    var r := "/backend/uploads/" + folder + "/";
    assert r[..17] == "/backend/uploads/";
    r
  }

  /** The stored path with backslashes converted, then one leading `/` and then one leading `backend/` removed. */
  function CleanPath(filePath: string): (r: string)
    ensures '\\' !in r
    ensures r == StripPrefix(StripPrefix(Slashes(filePath), "/"), "backend/")
  {
    StripPrefix(StripPrefix(Slashes(filePath), "/"), "backend/")
  }

  /** `viewResource`'s `fullPath`: every URL it builds is under `/backend/` and uses forward slashes only. */
  function ViewPath(filePath: string, kind: string): (r: string)
    ensures StartsWith(r, "/backend/") && '\\' !in r
    ensures Contains(CleanPath(filePath), "uploads/") ==> r == "/backend/" + CleanPath(filePath)
    ensures !Contains(CleanPath(filePath), "uploads/") ==>
      r == "/backend/uploads/" + TypeFolder(kind) + "/" + CleanPath(filePath)
  {
    var clean := CleanPath(filePath);
    var prefix := if Contains(clean, "uploads/") then "/backend/" else FolderUrl(kind);
    assert prefix[..9] == "/backend/";
    var r := prefix + clean;
    assert r[..9] == prefix[..9];
    r
  }

  /** The backslash conversion the list page applies before calling `viewResource` makes no difference. */
  lemma ViewPathIgnoresPreconversion(filePath: string, kind: string)
    ensures ViewPath(Slashes(filePath), kind) == ViewPath(filePath, kind)
  {
    SlashesIdempotent(filePath);
  }

  /** Cleaning a path under `backend/uploads/` leaves `uploads/` and the rest. */
  lemma CleanUploadsPath(tail: string)
    requires '\\' !in tail
    ensures CleanPath("backend/uploads/" + tail) == "uploads/" + tail
  {
    var rest := "uploads/" + tail;
    var p := "backend/uploads/" + tail;
    assert p == "backend/" + rest by {
      assert "backend/uploads/" == "backend/" + "uploads/";
    }
    assert '\\' !in p;
    SlashesNoOp(p);
    assert !StartsWith(p, "/") by { assert p[0] != '/'; }
    assert p[..8] == "backend/" && p[8..] == rest;
  }

  /** `/backend/uploads/<tail>` is `/` followed by `backend/uploads/<tail>`. */
  lemma RootedUploadsPath(tail: string)
    ensures "/backend/" + ("uploads/" + tail) == "/" + ("backend/uploads/" + tail)
  {
    var a := "/backend/" + ("uploads/" + tail);
    var b := "/" + ("backend/uploads/" + tail);
    assert |a| == |b|;
    forall i | 0 <= i < |a|
      ensures a[i] == b[i]
    {
      if i >= 17 {
        assert a[i] == tail[i - 17] == b[i];
      }
    }
  }

  /** A path under `backend/uploads/` is served from `/` followed by that path, whatever the type. */
  lemma UploadsPathIsServed(tail: string, kind: string)
    requires '\\' !in tail
    ensures ViewPath("backend/uploads/" + tail, kind) == "/" + ("backend/uploads/" + tail)
  {
    var clean := "uploads/" + tail;
    var p := "backend/uploads/" + tail;
    CleanUploadsPath(tail);
    assert StartsWith(clean, "uploads/") by {
      assert clean[..8] == "uploads/";
    }
    assert Contains(CleanPath(p), "uploads/");
    assert ViewPath(p, kind) == "/backend/" + clean;
    RootedUploadsPath(tail);
  }

  /** A file stored by the server (`backend/uploads/<folder>/<name>`) is served from `/` followed by its stored path. */
  lemma StoredPathIsServed(f: Uploads.FilePart, now: nat, random: nat, kind: string)
    ensures ViewPath(Uploads.StoredPath(f, now, random), kind) == "/" + Uploads.StoredPath(f, now, random)
  {
    var p := Uploads.StoredPath(f, now, random);
    Uploads.StoredPathUnderRoot(f, now, random);
    UploadsPathIsServed(p[16..], kind);
  }

  /** A bare file name is looked for in its type's folder. */
  lemma BareNameUsesTypeFolder(name: string, kind: string)
    requires '\\' !in name && '/' !in name && !Contains(name, "uploads/") && !StartsWith(name, "backend/")
    ensures ViewPath(name, kind) == "/backend/uploads/" + TypeFolder(kind) + "/" + name
  {
    SlashesNoOp(name);
  }
}
