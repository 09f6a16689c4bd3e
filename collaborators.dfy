/** The collaborator contracts the use cases depend on: manifest and file
    repositories, content and code extractors, the lot balancer, the
    file-system manager and the template filler. Each contract is played by
    an in-memory stand-in that records every call it receives, in order, in a
    journal it may share with the others, and answers from its configuration:
    a value for each argument, or the exception configured for that call. */
module Collaborators {
  import opened Wrappers
  import opened Maps
  import opened Errors
  import opened Paths
  import opened Domain

  /** One call on one of the contracts, with its arguments. */
  datatype Call =
    | LoadFromFile(filePath: Path)
    | ListFiles(directory: Path)
    | ExtractText(file: DocumentFile, profileId: string)
    | FindCode(text: string, profileId: string)
    | BalanceLots(groups: seq<DocumentGroup>, maxDocsPerLot: int)
    | CreateDirectory(path: Path)
    | MoveFile(source: Path, destination: Path)
    | CopyFile(source: Path, destination: Path)
    | FillAndSave(templatePath: Path, outputPath: Path, data: seq<DocumentGroup>)

  /** The calls received so far, oldest first. */
  class Journal {
    var calls: seq<Call>

    constructor ()
      ensures calls == []
    {
      calls := [];
    }
  }

  /** `IManifestRepository.load_from_file`: the items of a manifest, or the
      exception reading it raises. */
  class ManifestRepository {
    const journal: Journal
    const answer: Path -> Result<seq<ManifestItem>>

    constructor (journal: Journal, answer: Path -> Result<seq<ManifestItem>>)
      ensures this.journal == journal && this.answer == answer
    {
      this.journal := journal;
      this.answer := answer;
    }

    method LoadFromFile(filePath: Path) returns (r: Result<seq<ManifestItem>>)
      modifies journal
      ensures journal.calls == old(journal.calls) + [Call.LoadFromFile(filePath)]
      ensures r == answer(filePath)
    {
      journal.calls := journal.calls + [Call.LoadFromFile(filePath)];
      r := answer(filePath);
    }
  }

  /** `IFileRepository.list_files`: the files found under a directory. The
      stand-in knows a fixed set of directories and their contents; for any
      other path it raises as the disk-backed repository does. */
  class FileRepository {
    const journal: Journal
    const directories: map<Path, seq<DocumentFile>>

    constructor (journal: Journal, directories: map<Path, seq<DocumentFile>>)
      ensures this.journal == journal && this.directories == directories
    {
      this.journal := journal;
      this.directories := directories;
    }

    /** The files a listing of `directory` returns. */
    function Listed(directory: Path): seq<DocumentFile> {
      if directory in directories then directories[directory] else []
    }

    /** The outcome of listing `directory`. */
    function Answer(directory: Path): (r: Result<seq<DocumentFile>>)
      ensures r.Ok? <==> directory in directories
      ensures r.Ok? ==> r.value == directories[directory]
      ensures r.Err? ==> r.error == Exception(SourceDirectoryNotFoundError, "Diretório não encontrado: " + directory)
    {
      if directory in directories then Ok(directories[directory])
      else Err(Exception(SourceDirectoryNotFoundError, "Diretório não encontrado: " + directory))
    }

    method ListFiles(directory: Path) returns (r: Result<seq<DocumentFile>>)
      modifies journal
      ensures journal.calls == old(journal.calls) + [Call.ListFiles(directory)]
      ensures r == Answer(directory)
    {
      journal.calls := journal.calls + [Call.ListFiles(directory)];
      r := Answer(directory);
    }
  }

  /** `IContentExtractor.extract_text`: the text of a file, which depends on
      the file's path and the profile; reading may raise. */
  class ContentExtractor {
    const journal: Journal
    const answer: (Path, string) -> Result<string>

    constructor (journal: Journal, answer: (Path, string) -> Result<string>)
      ensures this.journal == journal && this.answer == answer
    {
      this.journal := journal;
      this.answer := answer;
    }

    method ExtractText(file: DocumentFile, profileId: string) returns (r: Result<string>)
      modifies journal
      ensures journal.calls == old(journal.calls) + [Call.ExtractText(file, profileId)]
      ensures r == answer(file.path, profileId)
    {
      journal.calls := journal.calls + [Call.ExtractText(file, profileId)];
      r := answer(file.path, profileId);
    }
  }

  /** `ICodeExtractor.find_code`: a code found in a text, or none. */
  class CodeExtractor {
    const journal: Journal
    const answer: (string, string) -> Option<string>

    constructor (journal: Journal, answer: (string, string) -> Option<string>)
      ensures this.journal == journal && this.answer == answer
    {
      this.journal := journal;
      this.answer := answer;
    }

    method FindCode(text: string, profileId: string) returns (r: Option<string>)
      modifies journal
      ensures journal.calls == old(journal.calls) + [Call.FindCode(text, profileId)]
      ensures r == answer(text, profileId)
    {
      journal.calls := journal.calls + [Call.FindCode(text, profileId)];
      r := answer(text, profileId);
    }
  }

  /** `ILotBalancerService.balance_lots`: groups and a per-lot limit map to a
      list of lots. */
  class LotBalancer {
    const journal: Journal
    const answer: (seq<DocumentGroup>, int) -> Result<seq<OutputLot>>

    constructor (journal: Journal, answer: (seq<DocumentGroup>, int) -> Result<seq<OutputLot>>)
      ensures this.journal == journal && this.answer == answer
    {
      this.journal := journal;
      this.answer := answer;
    }

    method BalanceLots(groups: seq<DocumentGroup>, maxDocsPerLot: int) returns (r: Result<seq<OutputLot>>)
      modifies journal
      ensures journal.calls == old(journal.calls) + [Call.BalanceLots(groups, maxDocsPerLot)]
      ensures r == answer(groups, maxDocsPerLot)
    {
      journal.calls := journal.calls + [Call.BalanceLots(groups, maxDocsPerLot)];
      r := answer(groups, maxDocsPerLot);
    }
  }

  /** `IFileSystemManager`: each operation returns nothing or raises; the
      stand-in raises exactly for the calls listed in `failures`. */
  class FileSystemManager {
    const journal: Journal
    const failures: map<Call, Exception>

    constructor (journal: Journal, failures: map<Call, Exception>)
      ensures this.journal == journal && this.failures == failures
    {
      this.journal := journal;
      this.failures := failures;
    }

    method CreateDirectory(path: Path) returns (raised: Option<Exception>)
      modifies journal
      ensures journal.calls == old(journal.calls) + [Call.CreateDirectory(path)]
      ensures raised == Lookup(failures, Call.CreateDirectory(path))
    {
      journal.calls := journal.calls + [Call.CreateDirectory(path)];
      raised := Lookup(failures, Call.CreateDirectory(path));
    }

    method MoveFile(source: Path, destination: Path) returns (raised: Option<Exception>)
      modifies journal
      ensures journal.calls == old(journal.calls) + [Call.MoveFile(source, destination)]
      ensures raised == Lookup(failures, Call.MoveFile(source, destination))
    {
      journal.calls := journal.calls + [Call.MoveFile(source, destination)];
      raised := Lookup(failures, Call.MoveFile(source, destination));
    }

    method CopyFile(source: Path, destination: Path) returns (raised: Option<Exception>)
      modifies journal
      ensures journal.calls == old(journal.calls) + [Call.CopyFile(source, destination)]
      ensures raised == Lookup(failures, Call.CopyFile(source, destination))
    {
      journal.calls := journal.calls + [Call.CopyFile(source, destination)];
      raised := Lookup(failures, Call.CopyFile(source, destination));
    }
  }

  /** `ITemplateFiller.fill_and_save`: returns nothing or raises. */
  class TemplateFiller {
    const journal: Journal
    const failures: map<Call, Exception>

    constructor (journal: Journal, failures: map<Call, Exception>)
      ensures this.journal == journal && this.failures == failures
    {
      this.journal := journal;
      this.failures := failures;
    }

    method FillAndSave(templatePath: Path, outputPath: Path, data: seq<DocumentGroup>)
      returns (raised: Option<Exception>)
      modifies journal
      ensures journal.calls == old(journal.calls) + [Call.FillAndSave(templatePath, outputPath, data)]
      ensures raised == Lookup(failures, Call.FillAndSave(templatePath, outputPath, data))
    {
      journal.calls := journal.calls + [Call.FillAndSave(templatePath, outputPath, data)];
      raised := Lookup(failures, Call.FillAndSave(templatePath, outputPath, data));
    }
  }
}
