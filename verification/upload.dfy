/** The upload helpers: MIME-group filtering, multer option defaults and the
    public path a stored file is served under. */
module Upload {
  import opened Common
  import opened Strings

  datatype AllowedGroup = Image | Audio | Any

  /** `allowByGroup(mimetype, group)`; a missing mimetype (`undefined?.startsWith`)
      is falsy. */
  function AllowByGroup(mimetype: Option<string>, group: AllowedGroup): (ok: bool)
    ensures group == Any ==> ok
    ensures group == Image ==> (ok <==> mimetype.Some? && StartsWith(mimetype.value, "image/"))
    ensures group == Audio ==> (ok <==> mimetype.Some? && StartsWith(mimetype.value, "audio/"))
  {
    match group
    case Any => true
    case Image => mimetype.Some? && StartsWith(mimetype.value, "image/")
    case Audio => mimetype.Some? && StartsWith(mimetype.value, "audio/")
  }

  /** `UploadOptions` */
  datatype UploadOptions = UploadOptions(folder: string, allowed: Option<AllowedGroup>, maxSizeMb: Option<int>)

  /** The parts of the multer options that decide acceptance: the folder under
      `uploads/`, the accepted group and the size limit in bytes. */
  datatype MulterOptions = MulterOptions(folder: string, allowed: AllowedGroup, fileSize: int)

  const DefaultMaxSizeMb: int := 5

  function BuildMulterOptions(opts: UploadOptions): (m: MulterOptions)
    ensures opts.folder == m.folder || opts.folder == "/" + m.folder
    ensures m.allowed == opts.allowed.GetOr(Any)
    ensures m.fileSize == opts.maxSizeMb.GetOr(DefaultMaxSizeMb) * 1048576
    ensures opts.maxSizeMb.None? ==> m.fileSize == 5242880
  {
    MulterOptions(
      StripOneLeadingSlash(opts.folder),
      opts.allowed.GetOr(Any),
      opts.maxSizeMb.GetOr(DefaultMaxSizeMb) * 1024 * 1024)
  }

  function RejectionMessage(group: AllowedGroup): string {
    match group
    case Image => "Only image files are allowed"
    case Audio => "Only audio files are allowed"
    case Any => "File type is not allowed"
  }

  /** `fileFilter`: accept, or reject with the message of the configured group. */
  function FileFilter(m: MulterOptions, mimetype: Option<string>): (r: Result<Unit>)
    ensures r.Ok? <==> AllowByGroup(mimetype, m.allowed)
    ensures r.Err? ==> r.error == BadRequest(RejectionMessage(m.allowed))
    ensures m.allowed == Any ==> r.Ok?
  {
    if AllowByGroup(mimetype, m.allowed) then Ok(Unit) else Err(BadRequest(RejectionMessage(m.allowed)))
  }

  /** `toPublicPath(folder, filename)` */
  function ToPublicPath(folder: string, filename: string): (p: string)
    ensures StartsWith(p, "/uploads/")
    ensures folder == "" || folder[0] != '/' ==> p == "/uploads/" + folder + "/" + filename
  {
    "/uploads/" + StripOneLeadingSlash(folder) + "/" + filename
  }

  /** One leading slash on the folder makes no difference (a second one would). */
  lemma LeadingSlashIgnored(folder: string, filename: string)
    requires folder == "" || folder[0] != '/'
    ensures ToPublicPath("/" + folder, filename) == ToPublicPath(folder, filename)
  {
    assert ("/" + folder)[1..] == folder;
  }

  /** A public path, with its leading slashes stripped as the catalog services do
      before deleting a file, names the file below `uploads/`. */
  lemma PublicPathOnDisk(folder: string, filename: string)
    ensures StripLeadingSlashes(ToPublicPath(folder, filename))
         == "uploads/" + StripOneLeadingSlash(folder) + "/" + filename
  {
    var rest := "uploads/" + StripOneLeadingSlash(folder) + "/" + filename;
    assert ToPublicPath(folder, filename) == "/" + rest;
    assert ("/" + rest)[1..] == rest;
    assert rest[0] == 'u';
  }
}
