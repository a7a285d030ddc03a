/** The clean-up of uploaded files that the catalog services run when a create
    or an update fails after the upload: `toDiskPath` and
    `cleanupUploadedFiles`, over a disk seen as the set of existing paths. */
module UploadCleanup {
  import opened Common
  import opened Strings

  /** `join(process.cwd(), publicPath.replace(/^\/+/, ''))`; `path.join`'s
      normalisation of `.` and `..` segments is not modelled. */
  function ToDiskPath(cwd: string, publicPath: string): (p: string)
    ensures StripLeadingSlashes(publicPath) == "" ==> p == cwd
    ensures StripLeadingSlashes(publicPath) != "" ==> p == cwd + "/" + StripLeadingSlashes(publicPath)
  {
    var relative := StripLeadingSlashes(publicPath);
    if relative == "" then cwd else cwd + "/" + relative
  }

  /** A leading slash more or less lands on the same file (so any number of
      them does). */
  lemma ExtraSlashIgnored(cwd: string, publicPath: string)
    ensures ToDiskPath(cwd, "/" + publicPath) == ToDiskPath(cwd, publicPath)
  {
    var s := "/" + publicPath;
    assert s[0] == '/' && s[1..] == publicPath;
  }

  /** The paths of the files uploaded with a create or update request, if any. */
  datatype Files = Files(photoPath: Field<string>, iconPath: Field<string>)

  /** `[files?.photoPath, files?.iconPath]` */
  function Paths(files: Files): seq<Field<string>> {
    [files.photoPath, files.iconPath]
  }

  /** `if (upload !== undefined && upload !== null && upload !== "")`: a
      stored path is replaced only by a non-empty upload. */
  function Replaced(current: Option<string>, upload: Field<string>): (p: Option<string>)
    ensures Sent(upload) ==> p == Some(upload.value)
    ensures !Sent(upload) ==> p == current
  {
    if Sent(upload) then Some(upload.value) else current
  }

  /** `paths.filter(p => Boolean(p))`: the non-empty strings, in order. */
  function Uploaded(paths: seq<Field<string>>): (r: seq<string>)
    ensures forall p :: p in r ==> p != ""
    ensures forall j :: 0 <= j < |paths| && Sent(paths[j]) ==> paths[j].value in r
    ensures forall p :: p in r ==> exists j :: 0 <= j < |paths| && Sent(paths[j]) && paths[j].value == p
  {
    if paths == [] then []
    else
      var rest := Uploaded(paths[1..]);
      assert forall j :: 1 <= j < |paths| ==> paths[j] == paths[1..][j - 1];
      if Sent(paths[0]) then [paths[0].value] + rest else rest
  }

  /** Nothing is deleted for `undefined`, `null` or an empty path. */
  lemma NothingUploadedNothingRemoved(paths: seq<Field<string>>)
    requires forall j :: 0 <= j < |paths| ==> !Sent(paths[j])
    ensures Uploaded(paths) == []
  {
    if Uploaded(paths) != [] {
      assert Uploaded(paths)[0] in Uploaded(paths);
    }
  }

  /** The disk paths a clean-up of `paths` removes. */
  function Doomed(cwd: string, paths: seq<Field<string>>): set<string> {
    set p | p in Uploaded(paths) :: ToDiskPath(cwd, p)
  }

  /** The file system under the working directory. */
  class Disk {
    const cwd: string
    /** The paths that currently exist. */
    var files: set<string>

    constructor(cwd: string, files: set<string>)
      ensures this.cwd == cwd && this.files == files
    {
      this.cwd := cwd;
      this.files := files;
    }

    /** `cleanupUploadedFiles(paths)`: each truthy path is unlinked; a failed
        unlink (a missing file) is ignored. */
    method Cleanup(paths: seq<Field<string>>)
      modifies this
      ensures files == old(files) - Doomed(cwd, paths)
    {
      var targets := Uploaded(paths);
      for i := 0 to |targets|
        invariant files == old(files) - (set p | p in targets[..i] :: ToDiskPath(cwd, p))
      {
        assert targets[..i + 1] == targets[..i] + [targets[i]];
        files := files - {ToDiskPath(cwd, targets[i])};
      }
      assert targets[..|targets|] == targets;
    }
  }
}
