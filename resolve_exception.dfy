/** Use case UC-02, resolving an unrecognized file under the strict policy:
    the file's text is read, a code is looked for in it, the code is cleaned
    of a one-character revision suffix, and the file is validated against the
    manifest item with exactly that code, or an error says why not. */
module ResolveException {
  import opened Wrappers
  import opened Maps
  import opened Strings
  import opened Paths
  import opened Errors
  import opened Domain
  import opened Collaborators

  /** The characters `[A-Z0-9]` matches under `re.IGNORECASE`: ASCII letters
      of either case, ASCII digits, and the four non-ASCII letters whose
      simple case mapping lands on an ASCII letter (dotted capital I, dotless
      small i, long s and the Kelvin sign). */
  predicate RevisionChar(c: char) {
    ('A' <= c <= 'Z') || ('a' <= c <= 'z') || ('0' <= c <= '9')
    || c == '\U{0130}' || c == '\U{0131}' || c == '\U{017F}' || c == '\U{212A}'
  }

  /** `re.sub(r'_[A-Z0-9]$', '', code, flags=re.IGNORECASE)`. Without
      MULTILINE, `$` matches at the end and just before a final newline, so
      the only candidate matches start three or two characters from the end;
      they cannot both match, and the leftmost is tried first. */
  function StripRevisionSuffix(code: string): (r: string)
    ensures |r| <= |code|
  {
    var n := |code|;
    if n >= 3 && code[n - 1] == '\n' && code[n - 3] == '_' && RevisionChar(code[n - 2]) then
      code[..n - 3] + "\n"
    else if n >= 2 && code[n - 2] == '_' && RevisionChar(code[n - 1]) then
      code[..n - 2]
    else
      code
  }

  /** `_sanitize_code`: the revision suffix removed, then whitespace trimmed. */
  function SanitizeCode(code: string): string {
    Strip(StripRevisionSuffix(code))
  }

  /** An underscore and one revision character are removed from the end. */
  lemma {:induction false} SuffixRemoved(stem: string, c: char)
    requires RevisionChar(c)
    ensures StripRevisionSuffix(stem + ['_', c]) == stem
  {
    var code := stem + ['_', c];
    assert code[..|code| - 2] == stem;
  }

  /** A code that does not end in `_` plus one revision character (ignoring
      one final newline) is left as it is. */
  lemma NoSuffixUnchanged(code: string)
    requires |code| < 2 || code[|code| - 2] != '_' || !RevisionChar(code[|code| - 1])
    requires |code| < 3 || code[|code| - 1] != '\n' || code[|code| - 3] != '_' || !RevisionChar(code[|code| - 2])
    ensures StripRevisionSuffix(code) == code
  {
  }

  /** Before a final newline the suffix is removed too, and the newline then
      goes with the trimming. */
  lemma {:induction false} SuffixBeforeNewline(stem: string, c: char)
    requires RevisionChar(c)
    ensures StripRevisionSuffix(stem + ['_', c, '\n']) == stem + "\n"
  {
    var code := stem + ['_', c, '\n'];
    assert code[..|code| - 3] == stem;
  }

  /** A revision suffix followed by a trailing blank survives the regular
      expression, which runs before the strip: "DOC_A " ends up as "DOC_A". */
  lemma {:induction false} TrailingBlankKeepsSuffix(stem: string, c: char)
    requires RevisionChar(c) && c != '\n'
    ensures StripRevisionSuffix(stem + ['_', c, ' ']) == stem + ['_', c, ' ']
  {
  }

  /** The example of the use case's tests. */
  lemma SanitizeExample(code: string)
    requires code == "DOC-RESOLVED_A"
    ensures SanitizeCode(code) == "DOC-RESOLVED"
  {
    var stem := code[..12];
    assert stem == "DOC-RESOLVED";
    assert code == stem + ['_', code[13]] && code[13] == 'A';
    SuffixRemoved(stem, code[13]);
    assert stem[0] == 'D' && stem[11] == 'D';
  }

  function NoCodeMessage(fileName: string, profileId: string): string {
    "Nenhum código encontrado no arquivo '" + fileName + "' usando o perfil '" + profileId + "'."
  }

  function NotInManifestMessage(code: string): string {
    "O código '" + code + "' foi encontrado, mas não existe no manifesto."
  }

  /** What the resolution decides once the code search has answered: the
      manifest item to link, or the error to raise. An absent or empty code is
      an extraction failure. */
  function Resolution(fileName: string, profileId: string, found: Option<string>, items: seq<ManifestItem>)
    : Result<ManifestItem>
  {
    if found.None? || found.value == "" then
      Err(Exception(ExtractionFailedError, NoCodeMessage(fileName, profileId)))
    else
      var code := SanitizeCode(found.value);
      var table := ManifestMap(items);
      if Str(code) in table then Ok(table[Str(code)])
      else Err(Exception(CodeNotInManifestError, NotInManifestMessage(code)))
  }

  /** The three outcomes, each exactly characterised: no code found; a code
      found whose sanitized form is not a manifest code; or the manifest item
      whose code is exactly the sanitized code. */
  lemma ResolutionOutcomes(fileName: string, profileId: string, found: Option<string>, items: seq<ManifestItem>)
    ensures var r := Resolution(fileName, profileId, found, items);
            (r.Err? && r.error.kind == ExtractionFailedError) <==> (found.None? || found.value == "")
    ensures var r := Resolution(fileName, profileId, found, items);
            (r.Err? && r.error.kind == CodeNotInManifestError)
              <==> (found.Some? && found.value != ""
                    && forall i :: 0 <= i < |items| ==> items[i].documentCode != Str(SanitizeCode(found.value)))
    ensures var r := Resolution(fileName, profileId, found, items);
            r.Ok? ==> found.Some? && r.value.documentCode == Str(SanitizeCode(found.value))
                      && r.value in items && r.value == ManifestMap(items)[Str(SanitizeCode(found.value))]
    ensures var r := Resolution(fileName, profileId, found, items);
            r.Err? ==> r.error.IsCoreError()
  {
    CoreFamily(ExtractionFailedError);
    CoreFamily(CodeNotInManifestError);
    var r := Resolution(fileName, profileId, found, items);
    if r.Ok? {
      ManifestMapHolds(items, Str(SanitizeCode(found.value)));
    }
  }

  /** The successful scenario of the use case's tests: "DOC-RESOLVED_A" found
      in a file, with "DOC-RESOLVED" in the manifest. */
  lemma ResolvedScenario(item: ManifestItem, code: string)
    requires item.documentCode == Str("DOC-RESOLVED") && code == "DOC-RESOLVED_A"
    ensures Resolution("file.pdf", "RIR", Some(code), [item]) == Ok(item)
  {
    SanitizeExample(code);
    assert CodePairs([item]) == [(item.documentCode, item)];
  }

  class ResolveUnrecognizedFileUseCase {
    const contentExtractor: ContentExtractor
    const codeExtractor: CodeExtractor

    constructor (contentExtractor: ContentExtractor, codeExtractor: CodeExtractor)
      ensures this.contentExtractor == contentExtractor && this.codeExtractor == codeExtractor
    {
      this.contentExtractor := contentExtractor;
      this.codeExtractor := codeExtractor;
    }

    /** `execute`: reads the text (a reading error propagates), finds the code
        in it, and then either links the file to its manifest item and
        returns that same file, or raises without touching the file. */
    method Execute(file: DocumentFile, profileId: string, items: seq<ManifestItem>) returns (r: Result<DocumentFile>)
      requires contentExtractor.journal == codeExtractor.journal
      modifies contentExtractor.journal, file
      ensures var text := contentExtractor.answer(file.path, profileId);
              var journal := contentExtractor.journal;
              if text.Err? then
                r == Err(text.error)
                && journal.calls == old(journal.calls) + [Call.ExtractText(file, profileId)]
                && file.status == old(file.status) && file.associatedManifestItem == old(file.associatedManifestItem)
              else
                var found := codeExtractor.answer(text.value, profileId);
                var decision := Resolution(Name(file.path), profileId, found, items);
                journal.calls == old(journal.calls) + [Call.ExtractText(file, profileId), Call.FindCode(text.value, profileId)]
                && match decision
                   case Ok(item) =>
                     r == Ok(file) && file.status == Validated && file.associatedManifestItem == Some(item)
                   case Err(e) =>
                     r == Err(e) && file.status == old(file.status)
                     && file.associatedManifestItem == old(file.associatedManifestItem)
    {
      var text := contentExtractor.ExtractText(file, profileId);
      if text.Err? {
        return Err(text.error);
      }
      var found := codeExtractor.FindCode(text.value, profileId);
      if found.None? || found.value == "" {
        return Err(Exception(ExtractionFailedError, NoCodeMessage(Name(file.path), profileId)));
      }
      var code := SanitizeCode(found.value);
      var table := ManifestMap(items);
      var matched := Lookup(table, Str(code));
      if matched.None? {
        return Err(Exception(CodeNotInManifestError, NotInManifestMessage(code)));
      }
      file.status := Validated;
      file.associatedManifestItem := matched;
      r := Ok(file);
    }
  }
}
