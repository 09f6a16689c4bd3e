/** The exception classes the core raises and catches: the `CoreError` family
    declared beside the collaborator protocols, and the built-in Python
    exceptions that reach the core from outside that family. */
module Errors {
  import opened Wrappers

  /** One constructor per exception class. */
  datatype ErrorKind =
    | CoreError
    | ManifestReadError
    | SourceDirectoryNotFoundError
    | FileReadError
    | TemplateNotFoundError
    | TemplateFillError
    | FileSystemOperationError
    | ExtractionFailedError
    | CodeNotInManifestError
      // built-in classes
    | OSError
    | FileNotFoundError
    | FileExistsError
    | PermissionError
    | IsADirectoryError
    | ValueError
    | IndexError
    | AttributeError

  /** The direct base class; `None` stands for `Exception` itself. */
  function BaseClass(k: ErrorKind): Option<ErrorKind> {
    match k
    case CoreError => None
    case ManifestReadError => Some(CoreError)
    case SourceDirectoryNotFoundError => Some(CoreError)
    case FileReadError => Some(CoreError)
    case TemplateNotFoundError => Some(CoreError)
    case TemplateFillError => Some(CoreError)
    case FileSystemOperationError => Some(CoreError)
    case ExtractionFailedError => Some(CoreError)
    case CodeNotInManifestError => Some(CoreError)
    case OSError => None
    case FileNotFoundError => Some(OSError)
    case FileExistsError => Some(OSError)
    case PermissionError => Some(OSError)
    case IsADirectoryError => Some(OSError)
    case ValueError => None
    case IndexError => None
    case AttributeError => None
  }

  function Depth(k: ErrorKind): nat {
    if BaseClass(k).Some? then 1 else 0
  }

  /** `issubclass(k, ancestor)`. */
  predicate IsSubclass(k: ErrorKind, ancestor: ErrorKind)
    decreases Depth(k)
  {
    k == ancestor || (BaseClass(k).Some? && Depth(BaseClass(k).value) < Depth(k)
                      && IsSubclass(BaseClass(k).value, ancestor))
  }

  /** The eight specific kinds declared with `CoreError` as their base. */
  predicate IsSpecificCoreKind(k: ErrorKind) {
    k.ManifestReadError? || k.SourceDirectoryNotFoundError? || k.FileReadError?
    || k.TemplateNotFoundError? || k.TemplateFillError? || k.FileSystemOperationError?
    || k.ExtractionFailedError? || k.CodeNotInManifestError?
  }

  /** A raised exception: its class and the message it was constructed with. */
  datatype Exception = Exception(kind: ErrorKind, message: string) {
    /** `str(e)` of an exception raised with one message argument. */
    function Str(): string { message }

    /** What `except CoreError` catches. */
    predicate IsCoreError() { IsSubclass(kind, CoreError) }
  }

  /** A call that either returns a value or raises. */
  datatype Result<T> = Ok(value: T) | Err(error: Exception)

  /** The `CoreError` family is exactly `CoreError` and the eight specific
      kinds; the built-in exceptions are outside it. */
  lemma CoreFamily(k: ErrorKind)
    ensures IsSubclass(k, CoreError) <==> (k == CoreError || IsSpecificCoreKind(k))
  {
    match k
    case FileNotFoundError => assert !IsSubclass(OSError, CoreError);
    case FileExistsError => assert !IsSubclass(OSError, CoreError);
    case PermissionError => assert !IsSubclass(OSError, CoreError);
    case IsADirectoryError => assert !IsSubclass(OSError, CoreError);
    case _ =>
  }

  /** `str(e)` is the message `e` was raised with. */
  lemma StrIsMessage(k: ErrorKind, message: string)
    ensures Exception(k, message).Str() == message
    ensures IsSpecificCoreKind(k) ==> Exception(k, message).IsCoreError()
  {
    CoreFamily(k);
  }
}
