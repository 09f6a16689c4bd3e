/** Collision-free naming and checked renaming on a local file system. The
    file system is the set of its directories and a map from each regular
    file's path to its size in bytes; the operations probe that state for
    free names and change it by renaming, copying and deleting files. */
module SafeFileOperations {
  import opened Wrappers
  import opened Strings
  import opened Paths
  import opened Errors

  /** The numbered names `_generate_unique_filename` tries, 1 to 1000. */
  const MaxUniqueCounter := 1000

  /** The numbered names `generate_safe_filename` tries, 1 to 999. */
  const MaxSafeCounter := 999

  /** `Path.exists()`: a regular file or a directory lives at `p`. */
  predicate ExistsIn(files: map<Path, int>, directories: set<Path>, p: Path) {
    p in files || p in directories
  }

  /** `<stem>_<NNN><suffix>` in the target's directory. */
  function NumberedName(target: Path, counter: int): Path {
    var name := Name(target);
    Paths.Join(Parent(target), Stem(name) + "_" + FormatZeroPadded(counter, 3) + Suffix(name))
  }

  /** `<stem>_<timestamp><suffix>` in the target's directory. */
  function TimestampName(target: Path, timestamp: int): Path {
    var name := Name(target);
    Paths.Join(Parent(target), Stem(name) + "_" + IntToString(timestamp) + Suffix(name))
  }

  /** The first free numbered name from `counter` on, or the timestamp name
      once all of them up to 1000 are taken. */
  function FirstFreeNumbered(files: map<Path, int>, directories: set<Path>, target: Path,
                             timestamp: int, counter: nat): Path
    decreases MaxUniqueCounter + 1 - counter
  {
    if counter > MaxUniqueCounter then TimestampName(target, timestamp)
    else if !ExistsIn(files, directories, NumberedName(target, counter)) then NumberedName(target, counter)
    else FirstFreeNumbered(files, directories, target, timestamp, counter + 1)
  }

  /** `_generate_unique_filename`, with `int(time.time())` given as
      `timestamp`. */
  function UniqueName(files: map<Path, int>, directories: set<Path>, target: Path, timestamp: int): Path {
    if !ExistsIn(files, directories, target) then target
    else FirstFreeNumbered(files, directories, target, timestamp, 1)
  }

  /** Every numbered name from `low` up to, not including, `high` is taken. */
  predicate NumberedTaken(files: map<Path, int>, directories: set<Path>, target: Path, low: int, high: int) {
    forall m :: low <= m < high ==> ExistsIn(files, directories, NumberedName(target, m))
  }

  /** The search from `counter` finds the first free numbered name at or
      after `counter`, or else every one of them is taken and the timestamp
      name comes back. */
  lemma {:induction false} FirstFreeNumberedMeaning(files: map<Path, int>, directories: set<Path>,
                                                    target: Path, timestamp: int, counter: nat)
    requires counter >= 1
    ensures var r := FirstFreeNumbered(files, directories, target, timestamp, counter);
            (exists n :: counter <= n <= MaxUniqueCounter && r == NumberedName(target, n)
                         && !ExistsIn(files, directories, r) && NumberedTaken(files, directories, target, counter, n))
            || (NumberedTaken(files, directories, target, counter, MaxUniqueCounter + 1)
                && r == TimestampName(target, timestamp))
    decreases MaxUniqueCounter + 1 - counter
  {
    var r := FirstFreeNumbered(files, directories, target, timestamp, counter);
    var candidate := NumberedName(target, counter);
    if counter > MaxUniqueCounter {
      assert NumberedTaken(files, directories, target, counter, MaxUniqueCounter + 1);
    } else if !ExistsIn(files, directories, candidate) {
      assert r == candidate && NumberedTaken(files, directories, target, counter, counter);
    } else {
      FirstFreeNumberedMeaning(files, directories, target, timestamp, counter + 1);
      assert r == FirstFreeNumbered(files, directories, target, timestamp, counter + 1);
      if n :| counter + 1 <= n <= MaxUniqueCounter && r == NumberedName(target, n)
              && !ExistsIn(files, directories, r) && NumberedTaken(files, directories, target, counter + 1, n) {
        assert NumberedTaken(files, directories, target, counter, n);
      } else {
        assert NumberedTaken(files, directories, target, counter, MaxUniqueCounter + 1);
      }
    }
  }

  /** The unique name is the target when the target is free; otherwise the
      first free `<stem>_<NNN><suffix>` for NNN from 001 to 1000; and only
      when all 1000 are taken the timestamp name, whose existence is never
      checked. */
  lemma UniqueNameMeaning(files: map<Path, int>, directories: set<Path>, target: Path, timestamp: int)
    ensures !ExistsIn(files, directories, target) ==> UniqueName(files, directories, target, timestamp) == target
    ensures var r := UniqueName(files, directories, target, timestamp);
            ExistsIn(files, directories, target) ==>
              (exists n :: 1 <= n <= MaxUniqueCounter && r == NumberedName(target, n)
                           && !ExistsIn(files, directories, r) && NumberedTaken(files, directories, target, 1, n))
              || (NumberedTaken(files, directories, target, 1, MaxUniqueCounter + 1)
                  && r == TimestampName(target, timestamp))
    ensures var r := UniqueName(files, directories, target, timestamp);
            !ExistsIn(files, directories, r) || r == TimestampName(target, timestamp)
  {
    if ExistsIn(files, directories, target) {
      FirstFreeNumberedMeaning(files, directories, target, timestamp, 1);
    }
  }

  /** `<base>_<revision><extension>` in the target directory. */
  function PreferredName(baseName: string, revision: string, extension: string, targetDir: Path): Path {
    Paths.Join(targetDir, baseName + "_" + revision + extension)
  }

  /** `<base>_<revision>_<NNN><extension>` in the target directory. */
  function AlternativeName(baseName: string, revision: string, extension: string, targetDir: Path,
                           counter: int): Path {
    Paths.Join(targetDir, baseName + "_" + revision + "_" + FormatZeroPadded(counter, 3) + extension)
  }

  function TooManyMessage(baseName: string, revision: string): string {
    "Muitos arquivos com nome similar: " + baseName + "_" + revision
  }

  /** The first free alternative name from `counter` on, or the `ValueError`
      raised once counter 999 is taken too. */
  function FirstFreeAlternative(files: map<Path, int>, directories: set<Path>, baseName: string,
                                revision: string, extension: string, targetDir: Path,
                                counter: nat): Result<Path>
    decreases MaxSafeCounter + 1 - counter
  {
    if counter > MaxSafeCounter then Err(Exception(ValueError, TooManyMessage(baseName, revision)))
    else
      var candidate := AlternativeName(baseName, revision, extension, targetDir, counter);
      if !ExistsIn(files, directories, candidate) then Ok(candidate)
      else FirstFreeAlternative(files, directories, baseName, revision, extension, targetDir, counter + 1)
  }

  /** `generate_safe_filename`. */
  function SafeName(files: map<Path, int>, directories: set<Path>, baseName: string, revision: string,
                    extension: string, targetDir: Path): Result<Path>
  {
    var preferred := PreferredName(baseName, revision, extension, targetDir);
    if !ExistsIn(files, directories, preferred) then Ok(preferred)
    else FirstFreeAlternative(files, directories, baseName, revision, extension, targetDir, 1)
  }

  /** The search from `counter` raises exactly when every alternative from
      `counter` to 999 is taken. */
  lemma {:induction false} FirstFreeAlternativeFails(files: map<Path, int>, directories: set<Path>,
                                                     baseName: string, revision: string, extension: string,
                                                     targetDir: Path, counter: nat)
    requires counter >= 1
    ensures var r := FirstFreeAlternative(files, directories, baseName, revision, extension, targetDir, counter);
            r.Err? <==> forall m :: counter <= m <= MaxSafeCounter
                          ==> ExistsIn(files, directories, AlternativeName(baseName, revision, extension, targetDir, m))
    ensures var r := FirstFreeAlternative(files, directories, baseName, revision, extension, targetDir, counter);
            r.Err? ==> r.error == Exception(ValueError, TooManyMessage(baseName, revision))
    decreases MaxSafeCounter + 1 - counter
  {
    if counter <= MaxSafeCounter {
      var candidate := AlternativeName(baseName, revision, extension, targetDir, counter);
      if ExistsIn(files, directories, candidate) {
        FirstFreeAlternativeFails(files, directories, baseName, revision, extension, targetDir, counter + 1);
        assert (forall m :: counter <= m <= MaxSafeCounter
                  ==> ExistsIn(files, directories, AlternativeName(baseName, revision, extension, targetDir, m)))
               <==> (forall m :: counter + 1 <= m <= MaxSafeCounter
                       ==> ExistsIn(files, directories, AlternativeName(baseName, revision, extension, targetDir, m)));
      }
    }
  }

  /** A name the search from `counter` returns is the first free
      alternative at or after `counter`. */
  lemma {:induction false} FirstFreeAlternativeFinds(files: map<Path, int>, directories: set<Path>,
                                                     baseName: string, revision: string, extension: string,
                                                     targetDir: Path, counter: nat)
    requires counter >= 1
    ensures var r := FirstFreeAlternative(files, directories, baseName, revision, extension, targetDir, counter);
            r.Ok? ==> exists n :: counter <= n <= MaxSafeCounter
                                  && r.value == AlternativeName(baseName, revision, extension, targetDir, n)
                                  && !ExistsIn(files, directories, r.value)
                                  && forall m :: counter <= m < n
                                       ==> ExistsIn(files, directories, AlternativeName(baseName, revision, extension, targetDir, m))
    decreases MaxSafeCounter + 1 - counter
  {
    var r := FirstFreeAlternative(files, directories, baseName, revision, extension, targetDir, counter);
    if counter <= MaxSafeCounter {
      var candidate := AlternativeName(baseName, revision, extension, targetDir, counter);
      if !ExistsIn(files, directories, candidate) {
        assert r == Ok(candidate);
        assert forall m :: counter <= m < counter
                 ==> ExistsIn(files, directories, AlternativeName(baseName, revision, extension, targetDir, m));
      } else if r.Ok? {
        FirstFreeAlternativeFinds(files, directories, baseName, revision, extension, targetDir, counter + 1);
        assert r == FirstFreeAlternative(files, directories, baseName, revision, extension, targetDir, counter + 1);
        var n :| counter + 1 <= n <= MaxSafeCounter
                 && r.value == AlternativeName(baseName, revision, extension, targetDir, n)
                 && !ExistsIn(files, directories, r.value)
                 && forall m :: counter + 1 <= m < n
                      ==> ExistsIn(files, directories, AlternativeName(baseName, revision, extension, targetDir, m));
        assert forall m :: counter <= m < n
                 ==> ExistsIn(files, directories, AlternativeName(baseName, revision, extension, targetDir, m));
      }
    }
  }

  /** The safe name is the preferred name when it is free; otherwise the
      first free numbered alternative from 001 to 999; and a `ValueError`
      exactly when the preferred name and all 999 alternatives are taken.
      Whatever it returns is free. */
  lemma SafeNameMeaning(files: map<Path, int>, directories: set<Path>, baseName: string, revision: string,
                        extension: string, targetDir: Path)
    ensures var preferred := PreferredName(baseName, revision, extension, targetDir);
            !ExistsIn(files, directories, preferred)
            ==> SafeName(files, directories, baseName, revision, extension, targetDir) == Ok(preferred)
    ensures var r := SafeName(files, directories, baseName, revision, extension, targetDir);
            r.Err? <==> (ExistsIn(files, directories, PreferredName(baseName, revision, extension, targetDir))
                         && forall m :: 1 <= m <= MaxSafeCounter
                              ==> ExistsIn(files, directories, AlternativeName(baseName, revision, extension, targetDir, m)))
    ensures var r := SafeName(files, directories, baseName, revision, extension, targetDir);
            r.Err? ==> r.error == Exception(ValueError, TooManyMessage(baseName, revision))
    ensures var r := SafeName(files, directories, baseName, revision, extension, targetDir);
            r.Ok? ==> !ExistsIn(files, directories, r.value)
    ensures var r := SafeName(files, directories, baseName, revision, extension, targetDir);
            r.Ok? && ExistsIn(files, directories, PreferredName(baseName, revision, extension, targetDir)) ==>
              exists n :: 1 <= n <= MaxSafeCounter
                          && r.value == AlternativeName(baseName, revision, extension, targetDir, n)
                          && forall m :: 1 <= m < n
                               ==> ExistsIn(files, directories, AlternativeName(baseName, revision, extension, targetDir, m))
  {
    if ExistsIn(files, directories, PreferredName(baseName, revision, extension, targetDir)) {
      FirstFreeAlternativeFails(files, directories, baseName, revision, extension, targetDir, 1);
      FirstFreeAlternativeFinds(files, directories, baseName, revision, extension, targetDir, 1);
    }
  }

  /** What an operation returns together with the state it leaves. */
  datatype Outcome = Outcome(result: Result<Path>, files: map<Path, int>, directories: set<Path>)

  /** `[Errno 21]`, raised when a directory is used where a file is needed. */
  function IsADirectory(p: Path): Exception {
    Exception(IsADirectoryError, "[Errno 21] Is a directory: '" + p + "'")
  }

  /** `shutil.SameFileError`, an `OSError`, raised when a file is copied onto
      itself; `destination` is the repr of the destination as `copyfile` got
      it, a `PosixPath` or, once `copy2` has joined a directory and a name,
      a plain string. */
  function SameFile(source: Path, destination: string): Exception {
    Exception(OSError, PathRepr(source) + " and " + destination + " are the same file")
  }

  /** `repr` of a `PosixPath`. */
  function PathRepr(p: Path): string {
    "PosixPath('" + p + "')"
  }

  /** Raised when the new path's size differs from the source's. */
  function SizeMismatch(expected: int, found: int): Exception {
    Exception(OSError, "Tamanho incorreto após cópia: " + IntToString(expected) + " -> " + IntToString(found))
  }

  /** `safe_copy_then_delete` hashes files below 50 MB. */
  const HashLimit := 50 * 1024 * 1024

  function NoPermission(directory: Path): Exception {
    Exception(PermissionError, "Sem permissão para escrever em: " + directory)
  }

  /** The local file system. Its configuration says which directories refuse
      writing, which renames, copies and deletions raise, which copies come
      out with a wrong size, and what `st_size` each directory reports. */
  class LocalFileSystem {
    var files: map<Path, int>
    var directories: set<Path>
    const unwritable: set<Path>
    const renameErrors: map<Path, Exception>
    const copyErrors: map<Path, Exception>
    const corruptedCopies: map<Path, int>
    const unlinkErrors: map<Path, Exception>
    const directorySize: Path -> int

    /** No path is both a regular file and a directory. */
    predicate Valid()
      reads this
    {
      files.Keys !! directories
    }

    constructor (files: map<Path, int>, directories: set<Path>, unwritable: set<Path>,
                 renameErrors: map<Path, Exception>, copyErrors: map<Path, Exception>,
                 corruptedCopies: map<Path, int>, unlinkErrors: map<Path, Exception>,
                 directorySize: Path -> int)
      requires files.Keys !! directories
      ensures Valid()
      ensures this.files == files && this.directories == directories && this.unwritable == unwritable
      ensures this.renameErrors == renameErrors && this.copyErrors == copyErrors
      ensures this.corruptedCopies == corruptedCopies && this.unlinkErrors == unlinkErrors
      ensures this.directorySize == directorySize
    {
      this.files := files;
      this.directories := directories;
      this.unwritable := unwritable;
      this.renameErrors := renameErrors;
      this.copyErrors := copyErrors;
      this.corruptedCopies := corruptedCopies;
      this.unlinkErrors := unlinkErrors;
      this.directorySize := directorySize;
    }

    predicate Exists(p: Path)
      reads this
    {
      ExistsIn(files, directories, p)
    }

    /** `Path.stat().st_size` of an existing path. */
    function Size(files: map<Path, int>, p: Path): int {
      if p in files then files[p] else directorySize(p)
    }

    /** `Path.mkdir(parents=True, exist_ok=True)`: the directory exists
        afterwards, unless a regular file is in the way. */
    method MakeDirectory(p: Path) returns (raised: Option<Exception>)
      requires Valid()
      modifies this
      ensures Valid()
      ensures files == old(files)
      ensures p in old(files) ==> raised == Some(Exception(FileExistsError, "[Errno 17] File exists: '" + p + "'"))
                                  && directories == old(directories)
      ensures p !in old(files) ==> raised == None && directories == old(directories) + {p}
    {
      if p in files {
        return Some(Exception(FileExistsError, "[Errno 17] File exists: '" + p + "'"));
      }
      directories := directories + {p};
      raised := None;
    }

    /** `Path.rename`: the file moves to the destination, replacing any file
        there; renaming onto a directory raises. */
    method Rename(source: Path, destination: Path) returns (raised: Option<Exception>)
      requires Valid() && source in files
      modifies this
      ensures Valid() && directories == old(directories)
      ensures raised == (if source in renameErrors then Some(renameErrors[source])
                         else if destination in directories
                         then Some(Exception(IsADirectoryError, "[Errno 21] Is a directory: '" + source + "' -> '" + destination + "'"))
                         else None)
      ensures raised.None? ==> files == (old(files) - {source})[destination := old(files)[source]]
      ensures raised.Some? ==> files == old(files)
    {
      if source in renameErrors {
        return Some(renameErrors[source]);
      }
      if destination in directories {
        return Some(Exception(IsADirectoryError, "[Errno 21] Is a directory: '" + source + "' -> '" + destination + "'"));
      }
      files := (files - {source})[destination := files[source]];
      raised := None;
    }

    /** Where `shutil.copy2` writes: into an existing directory under the
        source's name, otherwise at the destination itself. */
    function CopyDestination(directories: set<Path>, source: Path, destination: Path): Path {
      if destination in directories then Paths.Join(destination, Name(source)) else destination
    }

    /** What `shutil.copy2` raises, in the order `copyfile` meets it: a
        configured failure, the same file on both sides, a source that is a
        directory, a destination that is a directory. */
    function CopyError(files: map<Path, int>, directories: set<Path>, source: Path, destination: Path)
      : (raised: Option<Exception>)
      ensures raised.None? ==> source in files && CopyDestination(directories, source, destination) != source
                               && CopyDestination(directories, source, destination) !in directories
    {
      var written := CopyDestination(directories, source, destination);
      if source in copyErrors then Some(copyErrors[source])
      else if written == source then
        Some(SameFile(source, if written == destination then PathRepr(written) else "'" + written + "'"))
      else if source !in files then Some(IsADirectory(source))
      else if written in directories then Some(IsADirectory(written))
      else None
    }

    /** `shutil.copy2`: the file written gets the source's size, or the
        configured wrong size when that copy is corrupted. */
    method Copy(source: Path, destination: Path) returns (raised: Option<Exception>)
      requires Valid() && Exists(source)
      modifies this
      ensures Valid() && directories == old(directories)
      ensures raised == CopyError(old(files), directories, source, destination)
      ensures raised.None? ==> source in old(files)
                               && files == old(files)[CopyDestination(directories, source, destination)
                                                      := CopiedSize(old(files), source)]
      ensures raised.Some? ==> files == old(files)
    {
      var written := if destination in directories then Paths.Join(destination, Name(source)) else destination;
      if source in copyErrors {
        return Some(copyErrors[source]);
      }
      if written == source {
        return Some(SameFile(source, if written == destination then PathRepr(written) else "'" + written + "'"));
      }
      if source !in files {
        return Some(IsADirectory(source));
      }
      if written in directories {
        return Some(IsADirectory(written));
      }
      files := files[written := CopiedSize(files, source)];
      raised := None;
    }

    /** The size a copy of `source` ends up with. */
    function CopiedSize(files: map<Path, int>, source: Path): int
      requires source in files
    {
      if source in corruptedCopies then corruptedCopies[source] else files[source]
    }

    /** `Path.unlink`: removes a regular file unless its deletion is
        configured to raise; a directory or a missing path raises. Nothing
        changes when it raises. */
    method Unlink(p: Path) returns (raised: Option<Exception>)
      requires Valid()
      modifies this
      ensures Valid() && directories == old(directories)
      ensures p in old(files) && p !in unlinkErrors ==> raised == None && files == old(files) - {p}
      ensures p in old(files) && p in unlinkErrors ==> raised == Some(unlinkErrors[p]) && files == old(files)
      ensures p !in old(files) ==> files == old(files)
                                   && raised == Some(if p in directories then IsADirectory(p)
                                                     else Exception(FileNotFoundError, "[Errno 2] No such file or directory: '" + p + "'"))
    {
      if p in files {
        if p in unlinkErrors {
          return Some(unlinkErrors[p]);
        }
        files := files - {p};
        return None;
      }
      if p in directories {
        return Some(IsADirectory(p));
      }
      raised := Some(Exception(FileNotFoundError, "[Errno 2] No such file or directory: '" + p + "'"));
    }

    /** `_generate_unique_filename`, probing the names one by one. */
    method GenerateUniqueFilename(target: Path, timestamp: int) returns (p: Path)
      ensures p == UniqueName(files, directories, target, timestamp)
    {
      if !Exists(target) {
        return target;
      }
      var counter := 1;
      while counter <= MaxUniqueCounter
        invariant 1 <= counter <= MaxUniqueCounter + 1
        invariant UniqueName(files, directories, target, timestamp)
                  == FirstFreeNumbered(files, directories, target, timestamp, counter)
        decreases MaxUniqueCounter + 1 - counter
      {
        var newPath := NumberedName(target, counter);
        if !Exists(newPath) {
          return newPath;
        }
        counter := counter + 1;
      }
      p := TimestampName(target, timestamp);
    }

    /** `generate_safe_filename`, probing the names one by one. */
    method GenerateSafeFilename(baseName: string, revision: string, extension: string, targetDir: Path)
      returns (r: Result<Path>)
      ensures r == SafeName(files, directories, baseName, revision, extension, targetDir)
    {
      var preferredPath := PreferredName(baseName, revision, extension, targetDir);
      if !Exists(preferredPath) {
        return Ok(preferredPath);
      }
      var counter := 1;
      while true
        invariant 1 <= counter <= MaxSafeCounter
        invariant SafeName(files, directories, baseName, revision, extension, targetDir)
                  == FirstFreeAlternative(files, directories, baseName, revision, extension, targetDir, counter)
        decreases MaxSafeCounter + 1 - counter
      {
        var alternativePath := AlternativeName(baseName, revision, extension, targetDir, counter);
        if !Exists(alternativePath) {
          return Ok(alternativePath);
        }
        counter := counter + 1;
        if counter > MaxSafeCounter {
          return Err(Exception(ValueError, TooManyMessage(baseName, revision)));
        }
      }
    }

    /** What `safe_rename_file` returns and leaves behind. */
    function RenameOutcome(files: map<Path, int>, directories: set<Path>, source: Path, target: Path,
                           timestamp: int): Outcome
      requires files.Keys !! directories
    {
      if !ExistsIn(files, directories, source) then
        Outcome(Err(Exception(FileNotFoundError, "Arquivo origem não encontrado: " + source)), files, directories)
      else if source !in files then
        Outcome(Err(Exception(ValueError, "Origem não é um arquivo: " + source)), files, directories)
      else RenameTo(files, directories, source, UniqueName(files, directories, target, timestamp))
    }

    /** `safe_rename_file` once the unique name is chosen. */
    function RenameTo(files: map<Path, int>, directories: set<Path>, source: Path, unique: Path): Outcome
      requires source in files
    {
        if Parent(unique) in files then
          Outcome(Err(Exception(FileExistsError, "[Errno 17] File exists: '" + Parent(unique) + "'")), files, directories)
        else
          var made := directories + {Parent(unique)};
          if Parent(source) in unwritable then Outcome(Err(NoPermission(Parent(source))), files, made)
          else if Parent(unique) in unwritable then Outcome(Err(NoPermission(Parent(unique))), files, made)
          else if source in renameErrors then RenameFailure(renameErrors[source], files, made, source, unique)
          else if unique in made then
            RenameFailure(Exception(IsADirectoryError, "[Errno 21] Is a directory: '" + source + "' -> '" + unique + "'"),
                          files, made, source, unique)
          else if source == unique then
            RenameFailure(Exception(OSError, "ERRO CRÍTICO: Arquivo original ainda existe em " + source),
                          files, made, source, unique)
          else
            Outcome(Ok(unique), (files - {source})[unique := files[source]], made)
    }

    /** The `except` block of `safe_rename_file`: it reports the state of
        both paths, tries to delete whatever is at the new path, and raises
        an `OSError` carrying the original error and that report. */
    function RenameFailure(e: Exception, files: map<Path, int>, directories: set<Path>, source: Path,
                           unique: Path): Outcome
    {
      var sourceState := if ExistsIn(files, directories, source) then "Arquivo original ainda existe: " + source
                         else "CRÍTICO: Arquivo original desapareceu: " + source;
      var removed := unique in files && unique !in unlinkErrors;
      var report :=
        if !ExistsIn(files, directories, unique) then [sourceState]
        else if removed then [sourceState, "Arquivo destino foi criado: " + unique, "Arquivo destino parcial removido"]
        else [sourceState, "Arquivo destino foi criado: " + unique, "AVISO: Não foi possível remover arquivo destino parcial"];
      Outcome(Err(Exception(OSError, "Falha na renomeação: " + e.Str() + "\nEstado dos arquivos:\n" + Strings.Join("\n", report))),
              if removed then files - {unique} else files, directories)
    }

    /** `safe_rename_file`, with `int(time.time())` given as `timestamp`. */
    method SafeRenameFile(source: Path, target: Path, timestamp: int) returns (r: Result<Path>)
      requires Valid()
      modifies this
      ensures Valid()
      ensures Outcome(r, files, directories) == RenameOutcome(old(files), old(directories), source, target, timestamp)
    {
      if !Exists(source) {
        return Err(Exception(FileNotFoundError, "Arquivo origem não encontrado: " + source));
      }
      if source !in files {
        return Err(Exception(ValueError, "Origem não é um arquivo: " + source));
      }
      var uniqueTargetPath := GenerateUniqueFilename(target, timestamp);
      var raised := MakeDirectory(Parent(uniqueTargetPath));
      if raised.Some? {
        return Err(raised.value);
      }
      if Parent(source) in unwritable {
        return Err(NoPermission(Parent(source)));
      }
      if Parent(uniqueTargetPath) in unwritable {
        return Err(NoPermission(Parent(uniqueTargetPath)));
      }
      var failure := RenameChecked(source, uniqueTargetPath);
      if failure.None? {
        return Ok(uniqueTargetPath);
      }
      r := ReportRenameFailure(failure.value, source, uniqueTargetPath);
    }

    /** The `try` block of `safe_rename_file`: the rename and the checks that
        follow it. The new path always exists afterwards and always holds
        the original size, so the only check that can fail is the one for a
        source that is still there, which happens when the new path is the
        source itself. */
    method RenameChecked(source: Path, uniqueTargetPath: Path) returns (failure: Option<Exception>)
      requires Valid() && source in files
      modifies this
      ensures Valid() && directories == old(directories)
      ensures failure == (if source in renameErrors then Some(renameErrors[source])
                          else if uniqueTargetPath in directories
                          then Some(Exception(IsADirectoryError, "[Errno 21] Is a directory: '" + source + "' -> '" + uniqueTargetPath + "'"))
                          else if source == uniqueTargetPath
                          then Some(Exception(OSError, "ERRO CRÍTICO: Arquivo original ainda existe em " + source))
                          else None)
      ensures failure.None? ==> files == (old(files) - {source})[uniqueTargetPath := old(files)[source]]
      ensures failure.Some? ==> files == old(files)
    {
      var originalSize := files[source];
      var raised := Rename(source, uniqueTargetPath);
      if raised.Some? {
        failure := raised;
      } else if !Exists(uniqueTargetPath) {
        assert false;
      } else if Exists(source) {
        assert files == old(files);
        failure := Some(Exception(OSError, "ERRO CRÍTICO: Arquivo original ainda existe em " + source));
      } else if files[uniqueTargetPath] != originalSize {
        assert false;
      } else {
        failure := None;
      }
    }

    /** The `except` block of `safe_rename_file`. */
    method ReportRenameFailure(failure: Exception, source: Path, uniqueTargetPath: Path) returns (r: Result<Path>)
      requires Valid()
      modifies this
      ensures Valid()
      ensures Outcome(r, files, directories) == RenameFailure(failure, old(files), old(directories), source, uniqueTargetPath)
    {
      var sourceState := if Exists(source) then "Arquivo original ainda existe: " + source
                         else "CRÍTICO: Arquivo original desapareceu: " + source;
      var errorInfo := [sourceState];
      if Exists(uniqueTargetPath) {
        var unlinkRaised := Unlink(uniqueTargetPath);
        if unlinkRaised.None? {
          errorInfo := [sourceState, "Arquivo destino foi criado: " + uniqueTargetPath, "Arquivo destino parcial removido"];
        } else {
          errorInfo := [sourceState, "Arquivo destino foi criado: " + uniqueTargetPath,
                        "AVISO: Não foi possível remover arquivo destino parcial"];
        }
      }
      r := Err(Exception(OSError, "Falha na renomeação: " + failure.Str() + "\nEstado dos arquivos:\n"
                                  + Strings.Join("\n", errorInfo)));
    }

    /** What `safe_copy_then_delete` returns and leaves behind. Hashing a
        source below 50 MB opens it, which fails for a directory before the
        copy is tried. */
    function CopyThenDeleteOutcome(files: map<Path, int>, directories: set<Path>, source: Path, target: Path,
                                   timestamp: int): Outcome
      requires files.Keys !! directories
    {
      if !ExistsIn(files, directories, source) then
        Outcome(Err(Exception(FileNotFoundError, "Arquivo origem não encontrado: " + source)), files, directories)
      else if source !in files && directorySize(source) < HashLimit then
        Outcome(Err(IsADirectory(source)), files, directories)
      else CopyTo(files, directories, source, UniqueName(files, directories, target, timestamp))
    }

    /** `safe_copy_then_delete` once the unique name is chosen: make the
        directory, then copy and check. */
    function CopyTo(files: map<Path, int>, directories: set<Path>, source: Path, unique: Path): Outcome
      requires ExistsIn(files, directories, source)
    {
      if Parent(unique) in files then
        CopyFailure(Exception(FileExistsError, "[Errno 17] File exists: '" + Parent(unique) + "'"), files, directories, unique)
      else CopyChecked(files, directories + {Parent(unique)}, source, unique)
    }

    /** The copy and its checks once the directory is there: copy, compare
        the sizes of the source and of the new path, read the new path back
        when the source was hashed, delete the source. */
    function CopyChecked(files: map<Path, int>, directories: set<Path>, source: Path, unique: Path): Outcome
      requires ExistsIn(files, directories, source)
    {
      var raised := CopyError(files, directories, source, unique);
      if raised.Some? then CopyFailure(raised.value, files, directories, unique)
      else
        var size := files[source];
        var copied := files[CopyDestination(directories, source, unique) := CopiedSize(files, source)];
        var newSize := Size(copied, unique);
        if newSize != size then
          CopyFailure(SizeMismatch(size, newSize), copied, directories, unique)
        else if unique in directories && size < HashLimit then CopyFailure(IsADirectory(unique), copied, directories, unique)
        else if source in unlinkErrors then CopyFailure(unlinkErrors[source], copied, directories, unique)
        else Outcome(Ok(unique), copied - {source}, directories)
    }

    /** The `except` block of `safe_copy_then_delete`: a file at the new path
        is deleted unless its deletion raises, which is ignored, and an
        `OSError` carrying the original error is raised. */
    function CopyFailure(e: Exception, files: map<Path, int>, directories: set<Path>, unique: Path): Outcome {
      Outcome(Err(Exception(OSError, "Falha na operação copy-then-delete: " + e.Str())),
              if unique in unlinkErrors then files else files - {unique}, directories)
    }

    /** `safe_copy_then_delete`, with `int(time.time())` given as
        `timestamp`. The md5 comparison is not modelled: file contents are
        not part of the state. */
    method SafeCopyThenDelete(source: Path, target: Path, timestamp: int) returns (r: Result<Path>)
      requires Valid()
      modifies this
      ensures Valid()
      ensures Outcome(r, files, directories)
              == CopyThenDeleteOutcome(old(files), old(directories), source, target, timestamp)
    {
      if !Exists(source) {
        return Err(Exception(FileNotFoundError, "Arquivo origem não encontrado: " + source));
      }
      if source !in files && Size(files, source) < HashLimit {
        // hashing opens the source, which fails for a directory
        return Err(IsADirectory(source));
      }
      var uniqueTargetPath := GenerateUniqueFilename(target, timestamp);
      var failure := MakeDirectory(Parent(uniqueTargetPath));
      if failure.None? {
        failure := CopyAndCheck(source, uniqueTargetPath);
        if failure.None? {
          return Ok(uniqueTargetPath);
        }
      }
      r := CleanUpCopy(failure.value, uniqueTargetPath);
    }

    /** The `try` block of `safe_copy_then_delete` after the directory is
        made: what it raises, if anything, and the state it leaves are
        those `CopyChecked` gives. */
    method CopyAndCheck(source: Path, uniqueTargetPath: Path) returns (failure: Option<Exception>)
      requires Valid() && Exists(source)
      modifies this
      ensures Valid() && directories == old(directories)
      ensures failure.None? ==> Outcome(Ok(uniqueTargetPath), files, directories)
                                == CopyChecked(old(files), directories, source, uniqueTargetPath)
      ensures failure.Some? ==> CopyFailure(failure.value, files, directories, uniqueTargetPath)
                                == CopyChecked(old(files), directories, source, uniqueTargetPath)
    {
      var originalSize := Size(files, source);
      failure := Copy(source, uniqueTargetPath);
      if failure.Some? {
        return;
      }
      if !Exists(uniqueTargetPath) {
        assert false;
      } else if Size(files, uniqueTargetPath) != originalSize {
        failure := Some(SizeMismatch(originalSize, Size(files, uniqueTargetPath)));
      } else if uniqueTargetPath !in files && originalSize < HashLimit {
        // reading the copy back for its hash fails for a directory
        failure := Some(IsADirectory(uniqueTargetPath));
      } else {
        failure := Unlink(source);
        if failure.None? && Exists(source) {
          assert false;
        }
      }
    }

    /** The `except` block of `safe_copy_then_delete`. */
    method CleanUpCopy(failure: Exception, uniqueTargetPath: Path) returns (r: Result<Path>)
      requires Valid()
      modifies this
      ensures Valid()
      ensures Outcome(r, files, directories) == CopyFailure(failure, old(files), old(directories), uniqueTargetPath)
    {
      if Exists(uniqueTargetPath) {
        var ignored := Unlink(uniqueTargetPath);
      }
      r := Err(Exception(OSError, "Falha na operação copy-then-delete: " + failure.Str()));
    }
  }

  /** Nothing but `a` and `b` differs between the two maps. */
  ghost predicate SameExcept(before: map<Path, int>, after: map<Path, int>, a: Path, b: Path) {
    forall p :: p != a && p != b ==> (p in before <==> p in after) && (p in before ==> before[p] == after[p])
  }

  /** Once the unique name is chosen, a rename succeeds exactly when the
      new path's directory can be made, both directories are writable, the
      rename does not raise, and the new path is neither a directory nor the
      source. Then the file has moved to the new path with its size, and
      every other path is as it was. */
  lemma RenameSuccess(fs: LocalFileSystem, files: map<Path, int>, directories: set<Path>,
                      source: Path, unique: Path)
    requires files.Keys !! directories && source in files
    ensures var o := fs.RenameTo(files, directories, source, unique);
            o.result.Ok? <==> (Parent(unique) !in files && Parent(source) !in fs.unwritable
                               && Parent(unique) !in fs.unwritable && source !in fs.renameErrors
                               && unique !in directories && unique != Parent(unique) && unique != source)
    ensures var o := fs.RenameTo(files, directories, source, unique);
            o.result.Ok? ==> o.result.value == unique
                             && !ExistsIn(o.files, o.directories, source)
                             && unique in o.files && o.files[unique] == files[source]
                             && SameExcept(files, o.files, source, unique)
                             && o.directories == directories + {Parent(unique)}
  {
  }

  /** When a rename fails, a source that is not itself the new path is still
      there with its size, and apart from the new path nothing changes. */
  lemma RenameFailureKeepsSource(fs: LocalFileSystem, files: map<Path, int>, directories: set<Path>,
                                 source: Path, unique: Path)
    requires files.Keys !! directories && source in files
    ensures var o := fs.RenameTo(files, directories, source, unique);
            o.result.Err? && source != unique ==> source in o.files && o.files[source] == files[source]
    ensures var o := fs.RenameTo(files, directories, source, unique);
            o.result.Err? ==> o.files == files || o.files == files - {unique}
  {
    RenameFailureFiles(fs, files, directories, source, unique);
    var o := fs.RenameTo(files, directories, source, unique);
    if o.result.Err? && source != unique {
      assert source in files - {unique} && (files - {unique})[source] == files[source];
    }
  }

  /** A failed rename leaves the files as they were, or removes the new
      path. */
  lemma RenameFailureFiles(fs: LocalFileSystem, files: map<Path, int>, directories: set<Path>,
                           source: Path, unique: Path)
    requires files.Keys !! directories && source in files
    ensures var o := fs.RenameTo(files, directories, source, unique);
            o.result.Err? ==> o.files == files || o.files == files - {unique}
  {
    var o := fs.RenameTo(files, directories, source, unique);
    var made := directories + {Parent(unique)};
    if o.result.Err? && Parent(unique) !in files && Parent(source) !in fs.unwritable
       && Parent(unique) !in fs.unwritable {
      var e := if source in fs.renameErrors then fs.renameErrors[source]
               else if unique in made
               then Exception(IsADirectoryError, "[Errno 21] Is a directory: '" + source + "' -> '" + unique + "'")
               else Exception(OSError, "ERRO CRÍTICO: Arquivo original ainda existe em " + source);
      assert o == fs.RenameFailure(e, files, made, source, unique);
      RenameFailureRemovesNewPath(fs, e, files, made, source, unique);
    }
  }

  /** The clean-up deletes the file at the new path unless that deletion
      raises; then the file stays. */
  lemma RenameFailureRemovesNewPath(fs: LocalFileSystem, e: Exception, files: map<Path, int>, directories: set<Path>,
                                    source: Path, unique: Path)
    ensures var o := fs.RenameFailure(e, files, directories, source, unique);
            o.directories == directories && o.result.Err? && o.result.error.kind == OSError
            && (unique !in fs.unlinkErrors ==> o.files == files - {unique})
            && (unique in fs.unlinkErrors ==> o.files == files)
  {
  }

  /** When the file at the new path cannot be deleted, the report ends with
      the warning that it is still there. */
  lemma RenameFailureWarns(fs: LocalFileSystem, e: Exception, files: map<Path, int>, directories: set<Path>,
                           source: Path, unique: Path)
    requires unique in files && unique in fs.unlinkErrors
    ensures var o := fs.RenameFailure(e, files, directories, source, unique);
            EndsWith(o.result.error.message, "AVISO: Não foi possível remover arquivo destino parcial")
  {
    var o := fs.RenameFailure(e, files, directories, source, unique);
    var sourceState := if ExistsIn(files, directories, source) then "Arquivo original ainda existe: " + source
                       else "CRÍTICO: Arquivo original desapareceu: " + source;
    var warning := "AVISO: Não foi possível remover arquivo destino parcial";
    var report := [sourceState, "Arquivo destino foi criado: " + unique, warning];
    var head := "Falha na renomeação: " + e.Str() + "\nEstado dos arquivos:\n";
    assert o.result.error.message == head + Strings.Join("\n", report);
    JoinEndsWithLast("\n", report);
    EndsWithAfterPrefix(head, Strings.Join("\n", report), warning);
  }

  /** A joined list ends with its last part. */
  lemma {:induction false} JoinEndsWithLast(sep: string, parts: seq<string>)
    requires |parts| >= 1
    ensures EndsWith(Strings.Join(sep, parts), parts[|parts| - 1])
  {
    if |parts| > 1 {
      JoinEndsWithLast(sep, parts[1..]);
      EndsWithAfterPrefix(parts[0] + sep, Strings.Join(sep, parts[1..]), parts[|parts| - 1]);
    }
  }

  lemma EndsWithAfterPrefix(prefix: string, s: string, suffix: string)
    requires EndsWith(s, suffix)
    ensures EndsWith(prefix + s, suffix)
  {
    assert (prefix + s)[|prefix + s| - |suffix|..] == s[|s| - |suffix|..];
  }

  /** The timestamp name is never checked: when it names the source itself
      (the target and all 1000 numbered names being taken), the rename to
      itself leaves the source in place, the test for a source that is
      still there raises, and the clean-up deletes the source unless that
      deletion raises. */
  lemma RenameOntoItselfDeletesSource(fs: LocalFileSystem, files: map<Path, int>, directories: set<Path>,
                                      source: Path)
    requires files.Keys !! directories
    requires source in files && source != Parent(source)
    requires Parent(source) !in files && Parent(source) !in fs.unwritable && source !in fs.renameErrors
    ensures var o := fs.RenameTo(files, directories, source, source);
            o.result.Err? && o.result.error.kind == OSError
            && (source !in fs.unlinkErrors ==> source !in o.files)
            && (source in fs.unlinkErrors ==> o.files == files)
  {
    var made := directories + {Parent(source)};
    var e := Exception(OSError, "ERRO CRÍTICO: Arquivo original ainda existe em " + source);
    assert fs.RenameTo(files, directories, source, source) == fs.RenameFailure(e, files, made, source, source);
    RenameFailureRemovesNewPath(fs, e, files, made, source, source);
  }

  /** Once the unique name is chosen, copy-then-delete deletes the source
      only after the copy is in place with the source's size: it succeeds
      exactly when the source is a regular file, the new path's directory
      can be made, the copy does not raise, the path `copy2` writes is
      neither the source nor a directory, the new path then reports the
      source's size (a directory at the new path reports its own, and is
      read back and refused when the source was hashed), and the source
      can be deleted. Then the copy lives where `copy2` wrote it, the
      source is gone, and every other path is as it was. */
  lemma CopyThenDeleteSuccess(fs: LocalFileSystem, files: map<Path, int>, directories: set<Path>,
                              source: Path, unique: Path)
    requires files.Keys !! directories && ExistsIn(files, directories, source)
    ensures var o := fs.CopyTo(files, directories, source, unique);
            var made := directories + {Parent(unique)};
            var written := fs.CopyDestination(made, source, unique);
            o.result.Ok? <==> (source in files && Parent(unique) !in files && source !in fs.copyErrors
                               && written != source && written !in made
                               && (if unique in made then fs.directorySize(unique) == files[source] >= HashLimit
                                   else fs.CopiedSize(files, source) == files[source])
                               && source !in fs.unlinkErrors)
    ensures var o := fs.CopyTo(files, directories, source, unique);
            var made := directories + {Parent(unique)};
            var written := fs.CopyDestination(made, source, unique);
            o.result.Ok? ==> o.result.value == unique
                             && !ExistsIn(o.files, o.directories, source)
                             && written in o.files && o.files[written] == fs.CopiedSize(files, source)
                             && (unique !in made ==> written == unique && o.files[unique] == files[source])
                             && SameExcept(files, o.files, source, written)
                             && o.directories == made
  {
  }

  /** When copy-then-delete fails, it raises an `OSError`, a regular file
      at the new path is removed unless its deletion raises, a source that
      is not itself the new path is still there with its size, and only
      the new path and the path `copy2` wrote can differ. */
  lemma CopyThenDeleteFailure(fs: LocalFileSystem, files: map<Path, int>, directories: set<Path>,
                              source: Path, unique: Path)
    requires files.Keys !! directories && ExistsIn(files, directories, source)
    ensures var o := fs.CopyTo(files, directories, source, unique);
            var made := directories + {Parent(unique)};
            var written := fs.CopyDestination(made, source, unique);
            o.result.Err? ==> o.result.error.kind == OSError
                              && (unique !in made && unique !in fs.unlinkErrors ==> unique !in o.files)
                              && (source in files && source != unique ==> source in o.files && o.files[source] == files[source])
                              && SameExcept(files, o.files, unique, written)
  {
    var o := fs.CopyTo(files, directories, source, unique);
    var made := directories + {Parent(unique)};
    var written := fs.CopyDestination(made, source, unique);
    if o.result.Err? && Parent(unique) !in files && fs.CopyError(files, made, source, unique).None? {
      var copied := files[written := fs.CopiedSize(files, source)];
      assert o.files == copied || o.files == copied - {unique};
      assert written != source;
      ChangedOnly(files, copied, o.files, unique, written);
    } else if o.result.Err? {
      RemovedOnly(files, unique, written);
    }
  }

  lemma RemovedOnly(files: map<Path, int>, unique: Path, written: Path)
    ensures SameExcept(files, files - {unique}, unique, written) && SameExcept(files, files, unique, written)
  {
  }

  lemma ChangedOnly(files: map<Path, int>, copied: map<Path, int>, after: map<Path, int>, unique: Path, written: Path)
    requires written in copied && copied == files[written := copied[written]]
    requires after == copied || after == copied - {unique}
    ensures SameExcept(files, after, unique, written)
  {
  }

  /** A copy that `copy2` puts inside a directory at the new path is left
      there when the directory's size differs from the source's: the
      clean-up cannot delete a directory. */
  lemma CopyIntoDirectoryLeavesCopy(fs: LocalFileSystem, files: map<Path, int>, directories: set<Path>,
                                    source: Path, unique: Path)
    requires files.Keys !! directories && source in files && unique in directories
    requires Parent(unique) !in files && source !in fs.copyErrors
    requires Paths.Join(unique, Name(source)) != source
    requires Paths.Join(unique, Name(source)) !in directories + {Parent(unique)}
    requires fs.directorySize(unique) != files[source]
    ensures var o := fs.CopyTo(files, directories, source, unique);
            var written := Paths.Join(unique, Name(source));
            o.result == Err(Exception(OSError, "Falha na operação copy-then-delete: "
                                               + SizeMismatch(files[source], fs.directorySize(unique)).message))
            && written in o.files && o.files[written] == fs.CopiedSize(files, source)
            && source in o.files && unique in o.directories
  {
    var made := directories + {Parent(unique)};
    var written := Paths.Join(unique, Name(source));
    assert unique in made && fs.CopyDestination(made, source, unique) == written;
    assert fs.CopyError(files, made, source, unique) == None;
    var copied := files[written := fs.CopiedSize(files, source)];
    assert unique !in copied;
    var e := SizeMismatch(files[source], fs.directorySize(unique));
    assert fs.CopyTo(files, directories, source, unique) == fs.CopyChecked(files, made, source, unique);
    assert fs.Size(copied, unique) == fs.directorySize(unique);
    assert fs.CopyChecked(files, made, source, unique) == fs.CopyFailure(e, copied, made, unique);
    assert copied - {unique} == copied;
  }

  /** Both operations refuse a missing source with `FileNotFoundError`, and
      a directory given as the source with `ValueError` (rename) or the
      `IsADirectoryError` of hashing it (copy-then-delete), changing
      nothing; a directory too large to be hashed gets as far as the copy,
      and that fails. */
  lemma SourceRefusals(fs: LocalFileSystem, files: map<Path, int>, directories: set<Path>,
                       source: Path, target: Path, timestamp: int)
    requires files.Keys !! directories
    ensures var missing := Outcome(Err(Exception(FileNotFoundError, "Arquivo origem não encontrado: " + source)),
                                   files, directories);
            !ExistsIn(files, directories, source)
            ==> fs.RenameOutcome(files, directories, source, target, timestamp) == missing
                && fs.CopyThenDeleteOutcome(files, directories, source, target, timestamp) == missing
    ensures source in directories
            ==> fs.RenameOutcome(files, directories, source, target, timestamp)
                  == Outcome(Err(Exception(ValueError, "Origem não é um arquivo: " + source)), files, directories)
    ensures source in directories && fs.directorySize(source) < HashLimit
            ==> fs.CopyThenDeleteOutcome(files, directories, source, target, timestamp)
                  == Outcome(Err(IsADirectory(source)), files, directories)
    ensures source in directories && fs.directorySize(source) >= HashLimit
            ==> fs.CopyThenDeleteOutcome(files, directories, source, target, timestamp).result.Err?
  {
  }
}
