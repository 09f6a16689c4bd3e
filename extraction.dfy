/** The profile-driven extractor: text is read from a file by a reader chosen
    by the file's extension, and a report code is looked for in that text by
    trying the profile's regular expressions in order. The regular-expression
    engine and the document readers are parameters: `search` stands for
    `re.search(pattern, text, re.IGNORECASE | re.MULTILINE)`. */
module Extraction {
  import opened Wrappers
  import opened Maps
  import opened Strings
  import opened Paths
  import opened Errors
  import opened Domain

  /** A successful search: the whole match, the number of groups the pattern
      declares, and group 1, which is `None` when that group took no part in
      the match. */
  datatype RegexMatch = RegexMatch(whole: string, groupCount: nat, group1: Option<string>)

  /** A profile's settings; only its "patterns" list is read. */
  type Profile = map<string, seq<string>>

  /** The code a match yields: group 1 when the pattern has groups, else the
      whole match. */
  function CodeOf(m: RegexMatch): (r: Option<string>)
    ensures m.groupCount > 0 ==> r == m.group1
    ensures m.groupCount == 0 ==> r == Some(m.whole)
  {
    if m.groupCount > 0 then m.group1 else Some(m.whole)
  }

  /** The index of the first pattern that matches the text, if any. */
  function FirstMatch(patterns: seq<string>, text: string, search: (string, string) -> Option<RegexMatch>)
    : (r: Option<nat>)
    ensures r.Some? ==> r.value < |patterns| && search(patterns[r.value], text).Some?
    ensures r.Some? ==> forall j :: 0 <= j < r.value ==> search(patterns[j], text).None?
    ensures r.None? <==> forall j :: 0 <= j < |patterns| ==> search(patterns[j], text).None?
  {
    if |patterns| == 0 then None
    else if search(patterns[0], text).Some? then Some(0)
    else
      match FirstMatch(patterns[1..], text, search)
      case None => None
      case Some(i) => Some(i + 1)
  }

  /** The patterns configured for a profile: `profile.get("patterns", [])`. */
  function Patterns(profile: Profile): seq<string> {
    Get(profile, "patterns", [])
  }

  /** What `find_code` returns. */
  function FoundCode(profiles: map<string, Profile>, search: (string, string) -> Option<RegexMatch>,
                     text: string, profileId: string): Option<string>
  {
    if profileId !in profiles || profiles[profileId] == map[] || text == "" then None
    else
      var patterns := Patterns(profiles[profileId]);
      match FirstMatch(patterns, text, search)
      case None => None
      case Some(i) => CodeOf(search(patterns[i], text).value)
  }

  /** An unknown or empty profile, or an empty text, finds nothing. */
  lemma NothingWithoutProfileOrText(profiles: map<string, Profile>, search: (string, string) -> Option<RegexMatch>,
                                    text: string, profileId: string)
    requires profileId !in profiles || profiles[profileId] == map[] || text == ""
    ensures FoundCode(profiles, search, text, profileId) == None
  {
  }

  /** The first pattern that matches decides the result; the patterns before
      it did not match and those after it are not consulted. */
  lemma FirstMatchingPatternDecides(profiles: map<string, Profile>, search: (string, string) -> Option<RegexMatch>,
                                    text: string, profileId: string, i: nat)
    requires profileId in profiles && profiles[profileId] != map[] && text != ""
    requires i < |Patterns(profiles[profileId])|
    requires search(Patterns(profiles[profileId])[i], text).Some?
    requires forall j :: 0 <= j < i ==> search(Patterns(profiles[profileId])[j], text).None?
    ensures FoundCode(profiles, search, text, profileId) == CodeOf(search(Patterns(profiles[profileId])[i], text).value)
  {
  }

  /** Patterns after the first matching one can be anything. */
  lemma {:induction false} LaterPatternsIgnored(patterns: seq<string>, rest: seq<string>, text: string,
                                                search: (string, string) -> Option<RegexMatch>)
    requires FirstMatch(patterns, text, search).Some?
    ensures FirstMatch(patterns + rest, text, search) == FirstMatch(patterns, text, search)
  {
    if search(patterns[0], text).None? {
      assert (patterns + rest)[1..] == patterns[1..] + rest;
      LaterPatternsIgnored(patterns[1..], rest, text, search);
    }
  }

  /** When no pattern matches, nothing is found; and whatever is found comes
      from some matching pattern. */
  lemma FoundOnlyByAMatch(profiles: map<string, Profile>, search: (string, string) -> Option<RegexMatch>,
                          text: string, profileId: string)
    ensures FoundCode(profiles, search, text, profileId).Some? ==>
              profileId in profiles && text != ""
              && exists i :: 0 <= i < |Patterns(profiles[profileId])|
                             && search(Patterns(profiles[profileId])[i], text).Some?
                             && FoundCode(profiles, search, text, profileId)
                                == CodeOf(search(Patterns(profiles[profileId])[i], text).value)
    ensures profileId in profiles
            && (forall j :: 0 <= j < |Patterns(profiles[profileId])| ==> search(Patterns(profiles[profileId])[j], text).None?)
            ==> FoundCode(profiles, search, text, profileId) == None
  {
  }

  /** `ProfiledExtractorService`: the profiles loaded from its configuration,
      the search engine and the two document readers. */
  class ProfiledExtractorService {
    const profiles: map<string, Profile>
    const search: (string, string) -> Option<RegexMatch>
    const readPdf: Path -> Result<string>
    const readDocx: Path -> Result<string>

    constructor (profiles: map<string, Profile>, search: (string, string) -> Option<RegexMatch>,
                 readPdf: Path -> Result<string>, readDocx: Path -> Result<string>)
      ensures this.profiles == profiles && this.search == search
      ensures this.readPdf == readPdf && this.readDocx == readDocx
    {
      this.profiles := profiles;
      this.search := search;
      this.readPdf := readPdf;
      this.readDocx := readDocx;
    }

    /** `find_code`: tries the profile's patterns in order and returns from
        the first that matches. */
    method FindCode(text: string, profileId: string) returns (r: Option<string>)
      ensures r == FoundCode(profiles, search, text, profileId)
    {
      if profileId !in profiles || profiles[profileId] == map[] || text == "" {
        return None;
      }
      var patterns := Get(profiles[profileId], "patterns", []);
      var i := 0;
      while i < |patterns|
        invariant 0 <= i <= |patterns|
        invariant forall j :: 0 <= j < i ==> search(patterns[j], text).None?
      {
        var m := search(patterns[i], text);
        if m.Some? {
          FirstMatchingPatternDecides(profiles, search, text, profileId, i);
          return CodeOf(m.value);
        }
        i := i + 1;
      }
      return None;
    }

    /** `extract_text`: ".pdf" and ".docx" files (extension compared in lower
        case) go to their reader, any other file reads as the empty text, and
        any reader failure becomes a `FileReadError` naming the file. */
    function ExtractText(file: DocumentFile, profileId: string): (r: Result<string>)
      ensures r.Err? ==> r.error.kind == FileReadError && r.error.IsCoreError()
    {
      var extension := Lower(Suffix(Name(file.path)));
      var read := if extension == ".pdf" then readPdf(file.path)
                  else if extension == ".docx" then readDocx(file.path)
                  else Ok("");
      StrIsMessage(FileReadError, "");
      match read
      case Ok(text) => Ok(text)
      case Err(e) => Err(Exception(FileReadError, "Falha ao ler o conteúdo de " + Name(file.path) + ": " + e.Str()))
    }
  }

  /** How `extract_text` routes a file: by its extension in lower case, to
      the PDF reader, the DOCX reader, or to the empty text; a reader's
      failure is reported as a `FileReadError` whose text names the file and
      carries the reader's message. */
  lemma ExtractTextRoutes(service: ProfiledExtractorService, file: DocumentFile, profileId: string)
    ensures var extension := Lower(Suffix(Name(file.path)));
            var r := service.ExtractText(file, profileId);
            (extension == ".pdf" && service.readPdf(file.path).Ok? ==> r == service.readPdf(file.path))
            && (extension == ".docx" && service.readDocx(file.path).Ok? ==> r == service.readDocx(file.path))
            && (extension != ".pdf" && extension != ".docx" ==> r == Ok(""))
            && (extension == ".pdf" && service.readPdf(file.path).Err? ==>
                  r.Err? && r.error.message == "Falha ao ler o conteúdo de " + Name(file.path) + ": "
                                               + service.readPdf(file.path).error.Str())
            && (extension == ".docx" && service.readDocx(file.path).Err? ==>
                  r.Err? && r.error.message == "Falha ao ler o conteúdo de " + Name(file.path) + ": "
                                               + service.readDocx(file.path).error.Str())
  {
  }

  /** The extension is compared in lower case: "REPORT.PDF" goes to the PDF
      reader. */
  lemma UpperCaseExtension(service: ProfiledExtractorService, file: DocumentFile, profileId: string)
    requires file.path == "REPORT.PDF"
    ensures service.ExtractText(file, profileId) == service.readPdf(file.path) || service.readPdf(file.path).Err?
  {
    assert '/' !in file.path;
    NameAfterLastSlash(file.path);
    LastIndexOfMeaning(file.path, '.');
    assert LastIndexOf(file.path, '.') == 6;
    assert Suffix(Name(file.path)) == ".PDF";
    assert Lower(".PDF") == ".pdf";
  }
}
