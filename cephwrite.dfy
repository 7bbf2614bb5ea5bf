/** Writing the rendered files: "create the root, then create the file
    exclusively, treating an existing file as success", over an abstract
    filesystem of directories and regular files. */
module CephWrite {
  import opened CephConf

  /** Permission bits, written in octal digits as the source writes them. */
  type FileMode = nat

  function Octal(a: nat, b: nat, c: nat): FileMode
    requires a < 8 && b < 8 && c < 8
  {
    a * 64 + b * 8 + c
  }

  const DirMode: FileMode := Octal(7, 5, 5)
  const ConfigMode: FileMode := Octal(6, 4, 0)
  const CredentialMode: FileMode := Octal(6, 0, 0)

  datatype FileEntry = FileEntry(mode: FileMode, content: string)

  /** Directories by path with their modes, regular files by path. */
  datatype FsState = FsState(dirs: map<string, FileMode>, files: map<string, FileEntry>)

  /** A path strictly below the configuration root. */
  predicate UnderRoot(q: string)
  {
    |q| > |ConfigRoot| + 1 && q[..|ConfigRoot| + 1] == ConfigRoot + "/"
  }

  /** No path is both a directory and a regular file, and the state is
      shaped like a tree near the root: the root's parent exists when the
      root does, and the root exists when anything below it does. */
  ghost predicate WellFormed(s: FsState)
  {
    && s.dirs.Keys !! s.files.Keys
    && (ConfigRoot in s.dirs ==> ConfigRootParent in s.dirs)
    && (forall q :: q in s.files && UnderRoot(q) ==> ConfigRoot in s.dirs)
    && (forall q :: q in s.dirs && UnderRoot(q) ==> ConfigRoot in s.dirs)
  }

  /** How the operating system answers the calls of one write: whether
      creating the missing root directories fails, whether the exclusive
      create fails for a reason other than existence, and, when rendering
      into the new file hits an I/O error, how many characters reached the
      file before it. */
  datatype OsOutcome = OsOutcome(mkdirFails: bool, createFails: bool, writeCut: Option<nat>)

  /** The errors a write returns; an already existing file is not one. */
  datatype WriteError = MkdirFailed | CreateFailed | ExecuteFailed

  datatype WriteResult = WriteResult(fs: FsState, err: Option<WriteError>)

  /** True when rendering `text` into the file is interrupted. */
  predicate WriteInterrupted(text: string, os: OsOutcome)
  {
    os.writeCut.Some? && os.writeCut.value < |text|
  }

  /** The root exists already, or creating it and its parent can succeed:
      no regular file is in the way and the operating system does not fail. */
  predicate RootAvailable(s: FsState, os: OsOutcome)
  {
    ConfigRoot in s.dirs
    || (!os.mkdirFails && ConfigRootParent !in s.files && ConfigRoot !in s.files)
  }

  /** `MkdirAll` of the root: the directories afterwards, or `None` when the
      call fails. An existing root is left alone; otherwise the parent and
      the root are created with mode 0755 where missing. */
  function MkdirRoot(s: FsState, os: OsOutcome): (dirs: Option<map<string, FileMode>>)
    ensures dirs.None? <==> !RootAvailable(s, os)
    ensures ConfigRoot in s.dirs ==> dirs == Some(s.dirs)
    ensures dirs.Some? ==>
              && ConfigRoot in dirs.value
              && (forall q :: q in s.dirs ==> q in dirs.value && dirs.value[q] == s.dirs[q])
              && (forall q :: q in dirs.value && q !in s.dirs ==>
                    (q == ConfigRoot || q == ConfigRootParent) && dirs.value[q] == DirMode)
    ensures dirs.Some? && WellFormed(s) ==>
              ConfigRootParent in dirs.value && dirs.value.Keys !! s.files.Keys
  {
    if ConfigRoot in s.dirs then Some(s.dirs)
    else if ConfigRootParent in s.files || ConfigRoot in s.files || os.mkdirFails then None
    else if ConfigRootParent in s.dirs then Some(s.dirs[ConfigRoot := DirMode])
    else Some(s.dirs[ConfigRootParent := DirMode][ConfigRoot := DirMode])
  }

  /** One call of the template writer, from the state before to the state
      after and the error it returns. */
  function TemplateWrite(s: FsState, fileName: string, mode: FileMode, text: string, os: OsOutcome)
    : (r: WriteResult)
    requires IsPlainName(fileName)
    // the target and no other regular file may change
    ensures r.fs.files - {JoinRoot(fileName)} == s.files - {JoinRoot(fileName)}
    // an existing regular file is never changed
    ensures JoinRoot(fileName) in s.files ==> r.fs.files == s.files
    // directories are only added, and only the root and its parent, with mode 0755
    ensures forall q :: q in s.dirs ==> q in r.fs.dirs && r.fs.dirs[q] == s.dirs[q]
    ensures forall q :: q in r.fs.dirs && q !in s.dirs ==>
              (q == ConfigRoot || q == ConfigRootParent) && r.fs.dirs[q] == DirMode
    // the root could not be created: nothing changes
    ensures r.err == Some(MkdirFailed) ==> r.fs == s && ConfigRoot !in s.dirs
    // the error of creating the root is returned, and only then
    ensures r.err == Some(MkdirFailed) <==> !RootAvailable(s, os)
    // otherwise the root exists afterwards, whatever the create and the
    // render do: the directories are those root creation left
    ensures RootAvailable(s, os) ==> r.fs.dirs == MkdirRoot(s, os).value
    // a new target below an available root: the outcome of the exclusive
    // create and of rendering decides the error and the stored file
    ensures RootAvailable(s, os) && JoinRoot(fileName) !in s.files && JoinRoot(fileName) !in s.dirs ==>
              && r.err == (if os.createFails then Some(CreateFailed)
                           else if WriteInterrupted(text, os) then Some(ExecuteFailed)
                           else None)
              && r.fs.files == (if os.createFails then s.files
                                else if WriteInterrupted(text, os)
                                then s.files[JoinRoot(fileName) := FileEntry(mode, text[..os.writeCut.value])]
                                else s.files[JoinRoot(fileName) := FileEntry(mode, text)])
    // the file could not be created: no regular file changes
    ensures r.err == Some(CreateFailed) ==> r.fs.files == s.files
    // success: the root exists and so does the target
    ensures r.err == None ==> ConfigRoot in r.fs.dirs
    ensures r.err == None ==> JoinRoot(fileName) in r.fs.files || JoinRoot(fileName) in r.fs.dirs
    // success on a new target: exactly the rendered text with the given mode
    // (a corollary of the outcome clause above, stated for readers of the
    // success case)
    ensures r.err == None && JoinRoot(fileName) !in s.files && JoinRoot(fileName) !in s.dirs ==>
              r.fs.files == s.files[JoinRoot(fileName) := FileEntry(mode, text)]
    // interrupted rendering: a new file holding a proper prefix of the text stays behind
    ensures r.err == Some(ExecuteFailed) ==>
              && JoinRoot(fileName) !in s.files
              && JoinRoot(fileName) in r.fs.files
              && r.fs.files[JoinRoot(fileName)].mode == mode
              && |r.fs.files[JoinRoot(fileName)].content| < |text|
              && r.fs.files[JoinRoot(fileName)].content
                 == text[..|r.fs.files[JoinRoot(fileName)].content|]
    // an existing target below an existing root: success, nothing changes
    ensures ConfigRoot in s.dirs && (JoinRoot(fileName) in s.files || JoinRoot(fileName) in s.dirs) ==>
              r == WriteResult(s, None)
    ensures WellFormed(s) && (JoinRoot(fileName) in s.files || JoinRoot(fileName) in s.dirs) ==>
              r == WriteResult(s, None)
    ensures WellFormed(s) ==> WellFormed(r.fs)
  {
    var p := JoinRoot(fileName);
    assert UnderRoot(p) by { assert p[..|ConfigRoot| + 1] == ConfigRoot + "/"; }
    match MkdirRoot(s, os)
    case None => WriteResult(s, Some(MkdirFailed))
    case Some(dirs) =>
      CreateTarget(FsState(dirs, s.files), p, mode, text, os)
  }

  /** The exclusive create of `p` and the render into it, once the root
      exists: an existing path is success without change, a failed create
      changes nothing, an interrupted render leaves the prefix written. */
  function CreateTarget(s: FsState, p: string, mode: FileMode, text: string, os: OsOutcome)
    : (r: WriteResult)
    ensures r.fs.dirs == s.dirs
    ensures r.fs.files - {p} == s.files - {p}
  {
    if p in s.files || p in s.dirs then
      WriteResult(s, None)
    else if os.createFails then
      WriteResult(s, Some(CreateFailed))
    else if WriteInterrupted(text, os) then
      var written := text[..os.writeCut.value];
      WriteResult(FsState(s.dirs, s.files[p := FileEntry(mode, written)]), Some(ExecuteFailed))
    else
      WriteResult(FsState(s.dirs, s.files[p := FileEntry(mode, text)]), None)
  }

  // ---------------------------------------------------------------------
  // The four writers
  // ---------------------------------------------------------------------

  /** No fault at all: the root can be made, the create and the render go
      through. */
  predicate NoFaults(os: OsOutcome)
  {
    !os.mkdirFails && !os.createFails && os.writeCut.None?
  }

  /** A state in which nothing blocks the root and the target is absent. */
  predicate FreshTarget(s: FsState, p: string)
  {
    ConfigRootParent !in s.files && ConfigRoot !in s.files && p !in s.files && p !in s.dirs
  }

  /** Writes the configuration: only `GetCephConfPath()` may change, and
      without faults a fresh target receives the rendered text, mode 0640. */
  function ConfigWrite(s: FsState, d: ConfigData, os: OsOutcome): (r: WriteResult)
    ensures r.fs.files - {GetCephConfPath()} == s.files - {GetCephConfPath()}
    ensures NoFaults(os) && FreshTarget(s, GetCephConfPath()) ==>
              r.err == None
              && r.fs.files == s.files[GetCephConfPath() := FileEntry(ConfigMode, RenderConfig(d))]
  {
    TemplateWrite(s, ConfigFileName, ConfigMode, RenderConfig(d), os)
  }

  /** Writes a restricted keyring: only the user's keyring path may change,
      and without faults a fresh target receives the rendered keyring, mode
      0600. */
  function KeyringWrite(s: FsState, d: KeyringData, os: OsOutcome): (r: WriteResult)
    requires '/' !in d.userId
    ensures r.fs.files - {GetCephKeyringPath(d.userId)} == s.files - {GetCephKeyringPath(d.userId)}
    ensures NoFaults(os) && FreshTarget(s, GetCephKeyringPath(d.userId)) ==>
              r.err == None
              && r.fs.files == s.files[GetCephKeyringPath(d.userId) := FileEntry(CredentialMode, RenderKeyring(d))]
  {
    TemplateWrite(s, KeyringFileName(d.userId), CredentialMode, RenderKeyring(d), os)
  }

  /** Writes a full-capability keyring to the same path as the restricted
      one, mode 0600. */
  function FullCapsKeyringWrite(s: FsState, d: FullCapsKeyringData, os: OsOutcome): (r: WriteResult)
    requires '/' !in d.userId
    ensures r.fs.files - {GetCephKeyringPath(d.userId)} == s.files - {GetCephKeyringPath(d.userId)}
    ensures NoFaults(os) && FreshTarget(s, GetCephKeyringPath(d.userId)) ==>
              r.err == None
              && r.fs.files == s.files[GetCephKeyringPath(d.userId) := FileEntry(CredentialMode, RenderFullCapsKeyring(d))]
  {
    TemplateWrite(s, KeyringFileName(d.userId), CredentialMode, RenderFullCapsKeyring(d), os)
  }

  /** Writes a secret: only the user's secret path may change, and without
      faults a fresh target receives the bare key, mode 0600. */
  function SecretWrite(s: FsState, d: SecretData, os: OsOutcome): (r: WriteResult)
    requires '/' !in d.userId
    ensures r.fs.files - {GetCephSecretPath(d.userId)} == s.files - {GetCephSecretPath(d.userId)}
    ensures NoFaults(os) && FreshTarget(s, GetCephSecretPath(d.userId)) ==>
              r.err == None
              && r.fs.files == s.files[GetCephSecretPath(d.userId) := FileEntry(CredentialMode, d.key)]
  {
    TemplateWrite(s, SecretFileName(d.userId), CredentialMode, RenderSecret(d), os)
  }

  // ---------------------------------------------------------------------
  // Properties of writing
  // ---------------------------------------------------------------------

  /** Once a write has returned success, or has left a partly rendered file
      behind, every later write to the same file name returns success and
      changes nothing, whatever it would render. */
  lemma WriteIsIdempotent(s: FsState, fileName: string, m1: FileMode, t1: string, os1: OsOutcome,
                          m2: FileMode, t2: string, os2: OsOutcome)
    requires IsPlainName(fileName)
    requires TemplateWrite(s, fileName, m1, t1, os1).err != Some(MkdirFailed)
    requires TemplateWrite(s, fileName, m1, t1, os1).err != Some(CreateFailed)
    ensures var s1 := TemplateWrite(s, fileName, m1, t1, os1).fs;
            TemplateWrite(s1, fileName, m2, t2, os2) == WriteResult(s1, None)
  {
  }

  /** `q` is absent from both file maps or holds the same entry in both. */
  ghost predicate SameFileAt(a: map<string, FileEntry>, b: map<string, FileEntry>, q: string)
  {
    (q in a <==> q in b) && (q in a ==> a[q] == b[q])
  }

  /** Maps that agree away from `p` agree at every other path. */
  lemma SameAwayFrom(a: map<string, FileEntry>, b: map<string, FileEntry>, p: string, q: string)
    requires a - {p} == b - {p} && q != p
    ensures SameFileAt(a, b, q)
  {
    assert q in a <==> q in a - {p};
    assert q in b <==> q in b - {p};
    if q in a { assert a[q] == (a - {p})[q]; assert b[q] == (b - {p})[q]; }
  }

  /** Writing a user's secret leaves every keyring and the configuration as
      they were. */
  lemma SecretWriteKeepsOtherFiles(s: FsState, x: SecretData, u: string, os: OsOutcome)
    requires '/' !in x.userId && '/' !in u
    ensures SameFileAt(SecretWrite(s, x, os).fs.files, s.files, GetCephKeyringPath(u))
    ensures SameFileAt(SecretWrite(s, x, os).fs.files, s.files, GetCephConfPath())
  {
    PathsDistinct(u, x.userId);
    PathsDistinct(x.userId, x.userId);
    var r, p := SecretWrite(s, x, os).fs.files, GetCephSecretPath(x.userId);
    SameAwayFrom(r, s.files, p, GetCephKeyringPath(u));
    SameAwayFrom(r, s.files, p, GetCephConfPath());
  }

  /** Writing a restricted keyring leaves every secret and the configuration
      as they were. */
  lemma KeyringWriteKeepsOtherFiles(s: FsState, k: KeyringData, u: string, os: OsOutcome)
    requires '/' !in k.userId && '/' !in u
    ensures SameFileAt(KeyringWrite(s, k, os).fs.files, s.files, GetCephSecretPath(u))
    ensures SameFileAt(KeyringWrite(s, k, os).fs.files, s.files, GetCephConfPath())
  {
    PathsDistinct(k.userId, u);
    var r, p := KeyringWrite(s, k, os).fs.files, GetCephKeyringPath(k.userId);
    SameAwayFrom(r, s.files, p, GetCephSecretPath(u));
    SameAwayFrom(r, s.files, p, GetCephConfPath());
  }

  /** Writing a full-capability keyring leaves every secret and the
      configuration as they were. */
  lemma FullCapsKeyringWriteKeepsOtherFiles(s: FsState, f: FullCapsKeyringData, u: string, os: OsOutcome)
    requires '/' !in f.userId && '/' !in u
    ensures SameFileAt(FullCapsKeyringWrite(s, f, os).fs.files, s.files, GetCephSecretPath(u))
    ensures SameFileAt(FullCapsKeyringWrite(s, f, os).fs.files, s.files, GetCephConfPath())
  {
    PathsDistinct(f.userId, u);
    var r, p := FullCapsKeyringWrite(s, f, os).fs.files, GetCephKeyringPath(f.userId);
    SameAwayFrom(r, s.files, p, GetCephSecretPath(u));
    SameAwayFrom(r, s.files, p, GetCephConfPath());
  }

  /** The two keyring kinds share one file: once either kind has been written
      for a user, writing the other kind for that user keeps the first one. */
  lemma KeyringKindsShareFile(s: FsState, k: KeyringData, f: FullCapsKeyringData,
                              os1: OsOutcome, os2: OsOutcome)
    requires '/' !in k.userId && k.userId == f.userId
    ensures var r1 := KeyringWrite(s, k, os1);
            r1.err == None ==> FullCapsKeyringWrite(r1.fs, f, os2) == WriteResult(r1.fs, None)
    ensures var r1 := FullCapsKeyringWrite(s, f, os1);
            r1.err == None ==> KeyringWrite(r1.fs, k, os2) == WriteResult(r1.fs, None)
  {
    var name := KeyringFileName(k.userId);
    var r1 := KeyringWrite(s, k, os1);
    if r1.err == None {
      WriteIsIdempotent(s, name, CredentialMode, RenderKeyring(k), os1,
                        CredentialMode, RenderFullCapsKeyring(f), os2);
    }
    var r2 := FullCapsKeyringWrite(s, f, os1);
    if r2.err == None {
      WriteIsIdempotent(s, name, CredentialMode, RenderFullCapsKeyring(f), os1,
                        CredentialMode, RenderKeyring(k), os2);
    }
  }

  /** A file whose rendering was interrupted is never completed: every later
      write to it reports success and leaves the partial content. */
  lemma PartialFileIsKept(s: FsState, fileName: string, m1: FileMode, t1: string, os1: OsOutcome,
                          m2: FileMode, t2: string, os2: OsOutcome)
    requires IsPlainName(fileName)
    requires TemplateWrite(s, fileName, m1, t1, os1).err == Some(ExecuteFailed)
    ensures var s1 := TemplateWrite(s, fileName, m1, t1, os1).fs;
            && s1.files[JoinRoot(fileName)].content != t1
            && TemplateWrite(s1, fileName, m2, t2, os2) == WriteResult(s1, None)
  {
    WriteIsIdempotent(s, fileName, m1, t1, os1, m2, t2, os2);
  }

  // ---------------------------------------------------------------------
  // The filesystem the writers act on
  // ---------------------------------------------------------------------

  class FileSystem {
    var dirs: map<string, FileMode>
    var files: map<string, FileEntry>

    function State(): FsState
      reads this
    {
      FsState(dirs, files)
    }

    ghost predicate Valid()
      reads this
    {
      WellFormed(State())
    }

    constructor (s: FsState)
      requires WellFormed(s)
      ensures Valid() && State() == s
    {
      dirs, files := s.dirs, s.files;
    }

    /** Creates the root and its parent where missing, as `MkdirRoot`
        describes; on failure nothing changes. */
    method MkdirAll(os: OsOutcome) returns (ok: bool)
      modifies this
      ensures files == old(files)
      ensures ok ==> MkdirRoot(old(State()), os) == Some(dirs)
      ensures !ok ==> MkdirRoot(old(State()), os).None? && dirs == old(dirs)
    {
      if ConfigRoot in dirs {
        return true;
      }
      if ConfigRootParent in files || ConfigRoot in files || os.mkdirFails {
        return false;
      }
      if ConfigRootParent !in dirs {
        dirs := dirs[ConfigRootParent := DirMode];
      }
      dirs := dirs[ConfigRoot := DirMode];
      ok := true;
    }

    /** Creates the root and its parent where missing, then creates the
        target exclusively and renders `text` into it. */
    method WriteCephTemplate(fileName: string, mode: FileMode, text: string, os: OsOutcome)
      returns (err: Option<WriteError>)
      requires Valid() && IsPlainName(fileName)
      modifies this
      ensures Valid()
      ensures WriteResult(State(), err) == TemplateWrite(old(State()), fileName, mode, text, os)
    {
      ghost var s := State();
      // create the root directory with every missing parent
      var ok := MkdirAll(os);
      if !ok {
        return Some(MkdirFailed);
      }
      ghost var made := FsState(MkdirRoot(s, os).value, s.files);
      assert State() == made;
      // exclusive create; an existing target counts as success
      err := CreateAndRender(JoinRoot(fileName), mode, text, os);
    }

    /** Creates `p` exclusively and renders `text` into it. */
    method CreateAndRender(p: string, mode: FileMode, text: string, os: OsOutcome)
      returns (err: Option<WriteError>)
      modifies this
      ensures WriteResult(State(), err) == CreateTarget(old(State()), p, mode, text, os)
    {
      if p in files || p in dirs {
        return None;
      }
      if os.createFails {
        return Some(CreateFailed);
      }
      files := files[p := FileEntry(mode, "")];
      // render into the new file; an I/O error leaves what was written
      if WriteInterrupted(text, os) {
        files := files[p := FileEntry(mode, text[..os.writeCut.value])];
        return Some(ExecuteFailed);
      }
      files := files[p := FileEntry(mode, text)];
      err := None;
    }

    method WriteConfig(d: ConfigData, os: OsOutcome) returns (err: Option<WriteError>)
      requires Valid()
      modifies this
      ensures Valid()
      ensures WriteResult(State(), err) == ConfigWrite(old(State()), d, os)
    {
      err := WriteCephTemplate(ConfigFileName, ConfigMode, RenderConfig(d), os);
    }

    method WriteKeyring(d: KeyringData, os: OsOutcome) returns (err: Option<WriteError>)
      requires Valid() && '/' !in d.userId
      modifies this
      ensures Valid()
      ensures WriteResult(State(), err) == KeyringWrite(old(State()), d, os)
    {
      err := WriteCephTemplate(KeyringFileName(d.userId), CredentialMode, RenderKeyring(d), os);
    }

    method WriteFullCapsKeyring(d: FullCapsKeyringData, os: OsOutcome) returns (err: Option<WriteError>)
      requires Valid() && '/' !in d.userId
      modifies this
      ensures Valid()
      ensures WriteResult(State(), err) == FullCapsKeyringWrite(old(State()), d, os)
    {
      err := WriteCephTemplate(KeyringFileName(d.userId), CredentialMode, RenderFullCapsKeyring(d), os);
    }

    method WriteSecret(d: SecretData, os: OsOutcome) returns (err: Option<WriteError>)
      requires Valid() && '/' !in d.userId
      modifies this
      ensures Valid()
      ensures WriteResult(State(), err) == SecretWrite(old(State()), d, os)
    {
      err := WriteCephTemplate(SecretFileName(d.userId), CredentialMode, RenderSecret(d), os);
    }
  }
}
