/** Capability packages: the checksum file's printer and parser, package validation, and pack / extract round trips. */
module Package {
  import opened Ordering
  import opened Paths
  import opened Wrappers

  type Content = string
  type Digest = string

  const DIGEST_LENGTH := 64

  /** The reserved names, the exclusion rule, SHA-256, and what Python's `int(text, 16)` accepts. */
  datatype Format = Format(
    manifestName: Path, legacyName: Path, checksumsName: Path, excludes: Path -> bool,
    digest: Content -> Digest, isHex: string -> bool)

  // ---- text ----

  /** Where Python's `splitlines` ends a line. */
  predicate IsBreak(c: char) {
    c in ['\n', '\r', '\U{0B}', '\U{0C}', '\U{1C}', '\U{1D}', '\U{1E}', '\U{85}', '\U{2028}', '\U{2029}']
  }

  predicate OneLine(text: string) {
    forall c :: c in text ==> !IsBreak(c)
  }

  /** Text between breaks. Compared with `splitlines` this only adds empty lines, which the parser skips. */
  function Lines(text: string): (lines: seq<string>)
    ensures lines != []
  {
    if text == "" then [""]
    else
      var rest := Lines(text[1..]);
      if IsBreak(text[0]) then [""] + rest else [[text[0]] + rest[0]] + rest[1..]
  }

  lemma {:induction false} LinesAreSingle(text: string)
    ensures forall i :: 0 <= i < |Lines(text)| ==> OneLine(Lines(text)[i])
  {
    if text != "" {
      LinesAreSingle(text[1..]);
    }
  }

  /** `"\n".join(lines)`. */
  function JoinLines(lines: seq<string>): string {
    if lines == [] then "" else if |lines| == 1 then lines[0] else lines[0] + "\n" + JoinLines(lines[1..])
  }

  lemma {:induction false} LinesOfOne(line: string, rest: string)
    requires OneLine(line)
    ensures Lines(line + "\n" + rest) == [line] + Lines(rest)
  {
    var text := line + "\n" + rest;
    if line == "" {
      assert text[1..] == rest;
    } else {
      assert text[1..] == line[1..] + "\n" + rest;
      LinesOfOne(line[1..], rest);
      assert [line[0]] + line[1..] == line;
    }
  }

  lemma {:induction false} LinesOfJoined(lines: seq<string>)
    requires forall i :: 0 <= i < |lines| ==> OneLine(lines[i])
    ensures Lines(JoinLines(lines) + "\n") == (if lines == [] then [""] else lines) + [""]
  {
    if lines == [] {
      LinesOfOne("", "");
      assert "" + "\n" + "" == "" + "\n";
    } else if |lines| == 1 {
      LinesOfOne(lines[0], "");
      assert lines[0] + "\n" + "" == lines[0] + "\n";
    } else {
      LinesOfJoined(lines[1..]);
      LinesOfOne(lines[0], JoinLines(lines[1..]) + "\n");
      assert JoinLines(lines) + "\n" == lines[0] + "\n" + (JoinLines(lines[1..]) + "\n");
    }
  }

  // ---- the checksum file ----

  predicate Safe(name: string) {
    name != "" && name[0] != '/' && ".." !in Split(name)
  }

  /** The paths a checksum file can speak of. */
  predicate Recordable(format: Format, path: string) {
    Safe(path) && OneLine(path) && path != format.checksumsName
  }

  predicate IsHexDigit(c: char) {
    '0' <= c <= '9' || 'a' <= c <= 'f'
  }

  /** Digests are 64 hexadecimal digits, and such digits are read as a number. */
  ghost predicate Good(format: Format) {
    && (forall text: string :: |text| == DIGEST_LENGTH && (forall c :: c in text ==> IsHexDigit(c)) ==> format.isHex(text))
    && forall content :: |format.digest(content)| == DIGEST_LENGTH && forall c :: c in format.digest(content) ==> IsHexDigit(c)
  }

  function Record(digest: Digest, path: Path): string {
    digest + "  " + path
  }

  function Records(format: Format, files: map<Path, Content>, names: seq<Path>): seq<string>
    requires forall i :: 0 <= i < |names| ==> names[i] in files
  {
    seq(|names|, i requires 0 <= i < |names| => Record(format.digest(files[names[i]]), names[i]))
  }

  function BuildChecksums(format: Format, files: map<Path, Content>): string {
    JoinLines(Records(format, files, SortedNames(files.Keys))) + "\n"
  }

  datatype RecordError = InvalidRecord | InvalidDigest | InvalidPath(path: Path) | DuplicatePath(path: Path)

  datatype Parsed = Parsed(checksums: map<Path, Digest>, errors: seq<RecordError>)

  /** Where the first two adjacent spaces are; past the end if nowhere. */
  function Gap(line: string): (k: nat)
    ensures k <= |line|
    ensures k < |line| ==> k + 1 < |line| && line[k] == ' ' && line[k + 1] == ' '
    ensures forall i :: 0 <= i < k && i + 1 < |line| ==> !(line[i] == ' ' && line[i + 1] == ' ')
  {
    if |line| < 2 then |line| else if line[0] == ' ' && line[1] == ' ' then 0 else 1 + Gap(line[1..])
  }

  function ParseLine(format: Format, acc: Parsed, line: string): Parsed {
    if line == "" then acc
    else
      var k := Gap(line);
      if k == |line| || k != DIGEST_LENGTH then acc.(errors := acc.errors + [InvalidRecord])
      else
        var digest, path := line[..k], line[k + 2..];
        if !format.isHex(digest) then acc.(errors := acc.errors + [InvalidDigest])
        else if !Safe(path) || path == format.checksumsName then acc.(errors := acc.errors + [InvalidPath(path)])
        else if path in acc.checksums then acc.(errors := acc.errors + [DuplicatePath(path)])
        else acc.(checksums := acc.checksums[path := digest])
  }

  function ParseLines(format: Format, lines: seq<string>): Parsed {
    if lines == [] then Parsed(map[], [])
    else ParseLine(format, ParseLines(format, lines[..|lines| - 1]), lines[|lines| - 1])
  }

  /** `_parse_checksums`, on decoded text. */
  method ParseChecksums(format: Format, text: string) returns (r: Parsed)
    ensures r == ParseLines(format, Lines(text))
  {
    var lines := Lines(text);
    var checksums: map<Path, Digest> := map[];
    var errors: seq<RecordError> := [];
    for i := 0 to |lines|
      invariant Parsed(checksums, errors) == ParseLines(format, lines[..i])
    {
      var line := lines[i];
      assert lines[..i + 1][..i] == lines[..i];
      if line == "" {
        continue;
      }
      var k := Gap(line);
      if k == |line| || k != DIGEST_LENGTH {
        errors := errors + [InvalidRecord];
        continue;
      }
      var digest, path := line[..k], line[k + 2..];
      if !format.isHex(digest) {
        errors := errors + [InvalidDigest];
        continue;
      }
      if !Safe(path) || path == format.checksumsName {
        errors := errors + [InvalidPath(path)];
        continue;
      }
      if path in checksums {
        errors := errors + [DuplicatePath(path)];
        continue;
      }
      checksums := checksums[path := digest];
    }
    assert lines[..|lines|] == lines;
    r := Parsed(checksums, errors);
  }

  function Digests(format: Format, files: map<Path, Content>): map<Path, Digest> {
    map path | path in files :: format.digest(files[path])
  }

  /** A record splits where it was joined: digests hold no spaces. */
  lemma RecordParses(format: Format, acc: Parsed, content: Content, path: Path)
    requires Good(format) && Recordable(format, path) && path !in acc.checksums
    ensures ParseLine(format, acc, Record(format.digest(content), path))
         == acc.(checksums := acc.checksums[path := format.digest(content)])
  {
    var digest := format.digest(content);
    var line := Record(digest, path);
    assert line[..DIGEST_LENGTH] == digest && line[DIGEST_LENGTH + 2..] == path;
    assert line[DIGEST_LENGTH] == ' ' && line[DIGEST_LENGTH + 1] == ' ';
    assert forall i :: 0 <= i < DIGEST_LENGTH ==> line[i] == digest[i] && digest[i] in digest;
    assert Gap(line) == DIGEST_LENGTH;
  }

  /** The digests of the named files, and nothing else. */
  ghost predicate AreDigests(format: Format, files: map<Path, Content>, names: seq<Path>, checksums: map<Path, Digest>) {
    forall path ::
      (path in checksums <==> path in names)
      && (path in checksums ==> path in files && checksums[path] == format.digest(files[path]))
  }

  lemma OneMoreRecord(format: Format, files: map<Path, Content>, names: seq<Path>, checksums: map<Path, Digest>, path: Path)
    requires AreDigests(format, files, names, checksums) && path in files
    ensures AreDigests(format, files, names + [path], checksums[path := format.digest(files[path])])
  {
  }

  lemma RecordsOfMore(format: Format, files: map<Path, Content>, names: seq<Path>, name: Path)
    requires forall i :: 0 <= i < |names| ==> names[i] in files
    requires name in files
    ensures Records(format, files, names + [name])
         == Records(format, files, names) + [Record(format.digest(files[name]), name)]
  {
  }

  lemma ParseMore(format: Format, lines: seq<string>, line: string)
    ensures ParseLines(format, lines + [line]) == ParseLine(format, ParseLines(format, lines), line)
  {
    assert (lines + [line])[..|lines|] == lines;
  }

  lemma RecordsParseNext(format: Format, files: map<Path, Content>, names: seq<Path>, name: Path)
    requires Good(format) && (forall i :: 0 <= i < |names| ==> names[i] in files) && name in files
    requires Recordable(format, name) && name !in names
    requires var parsed := ParseLines(format, Records(format, files, names));
             parsed.errors == [] && AreDigests(format, files, names, parsed.checksums)
    ensures var parsed := ParseLines(format, Records(format, files, names + [name]));
            parsed.errors == [] && AreDigests(format, files, names + [name], parsed.checksums)
  {
    var before := ParseLines(format, Records(format, files, names));
    RecordsOfMore(format, files, names, name);
    ParseMore(format, Records(format, files, names), Record(format.digest(files[name]), name));
    RecordParses(format, before, files[name], name);
    OneMoreRecord(format, files, names, before.checksums, name);
  }

  lemma LastIsNew(names: seq<Path>)
    requires names != [] && forall i, j :: 0 <= i < j < |names| ==> names[i] != names[j]
    ensures names[|names| - 1] !in names[..|names| - 1] && names == names[..|names| - 1] + [names[|names| - 1]]
  {
  }

  lemma {:induction false} RecordsParse(format: Format, files: map<Path, Content>, names: seq<Path>)
    requires Good(format)
    requires forall i :: 0 <= i < |names| ==> names[i] in files && Recordable(format, names[i])
    requires forall i, j :: 0 <= i < j < |names| ==> names[i] != names[j]
    ensures var parsed := ParseLines(format, Records(format, files, names));
            parsed.errors == [] && AreDigests(format, files, names, parsed.checksums)
    decreases |names|
  {
    if names != [] {
      var front, name := names[..|names| - 1], names[|names| - 1];
      LastIsNew(names);
      RecordsParse(format, files, front);
      RecordsParseNext(format, files, front, name);
    }
  }

  lemma AscendingIsDistinct(names: seq<string>)
    requires Ascending(Less, names)
    ensures forall i, j :: 0 <= i < j < |names| ==> names[i] != names[j]
  {
    forall i, j | 0 <= i < j < |names| ensures names[i] != names[j] {
      assert Less(names[i], names[j]);
      LessIrreflexive(names[i]);
    }
  }

  lemma RecordsAreSingle(format: Format, files: map<Path, Content>, names: seq<Path>, i: nat)
    requires Good(format) && i < |names| && (forall j :: 0 <= j < |names| ==> names[j] in files) && OneLine(names[i])
    ensures OneLine(Records(format, files, names)[i])
  {
    var digest := format.digest(files[names[i]]);
    assert forall c :: c in digest ==> IsHexDigit(c) && !IsBreak(c);
  }

  lemma EmptyLinesParse(format: Format, records: seq<string>)
    ensures ParseLines(format, (if records == [] then [""] else records) + [""]) == ParseLines(format, records)
  {
    ParseMore(format, if records == [] then [""] else records, "");
    ParseMore(format, [], "");
    assert [] + [""] == [""];
  }

  lemma BuiltParses(format: Format, files: map<Path, Content>)
    requires Good(format) && forall path :: path in files ==> Recordable(format, path)
    ensures ParseLines(format, Lines(BuildChecksums(format, files))) == Parsed(Digests(format, files), [])
  {
    var names := SortedNames(files.Keys);
    var records := Records(format, files, names);
    AscendingIsDistinct(names);
    RecordsParse(format, files, names);
    forall i | 0 <= i < |records| ensures OneLine(records[i]) {
      assert names[i] in files;
      RecordsAreSingle(format, files, names, i);
    }
    LinesOfJoined(records);
    EmptyLinesParse(format, records);
    ParsedDigests(format, files, names, ParseLines(format, records).checksums);
  }

  lemma ParsedDigests(format: Format, files: map<Path, Content>, names: seq<Path>, checksums: map<Path, Digest>)
    requires AreDigests(format, files, names, checksums) && forall path :: path in names <==> path in files
    ensures checksums == Digests(format, files)
  {
  }

  /** Whatever the text: only recordable paths come out. */
  lemma {:induction false} ParsedAreRecordable(format: Format, lines: seq<string>, path: Path)
    requires forall i :: 0 <= i < |lines| ==> OneLine(lines[i])
    requires path in ParseLines(format, lines).checksums
    ensures Recordable(format, path)
    decreases |lines|
  {
    var last := |lines| - 1;
    var before := ParseLines(format, lines[..last]);
    if path in before.checksums {
      ParsedAreRecordable(format, lines[..last], path);
    } else {
      assert forall c :: c in path ==> c in lines[last];
    }
  }

  /** Parsing what was printed gives back exactly the digests, exactly when every path is recordable. */
  lemma ChecksumsRoundTrip(format: Format, files: map<Path, Content>)
    requires Good(format)
    ensures ParseLines(format, Lines(BuildChecksums(format, files))) == Parsed(Digests(format, files), [])
        <==> forall path :: path in files ==> Recordable(format, path)
  {
    if forall path :: path in files ==> Recordable(format, path) {
      BuiltParses(format, files);
    }
    if ParseLines(format, Lines(BuildChecksums(format, files))) == Parsed(Digests(format, files), []) {
      forall path | path in files ensures Recordable(format, path) {
        assert path in Digests(format, files);
        LinesAreSingle(BuildChecksums(format, files));
        ParsedAreRecordable(format, Lines(BuildChecksums(format, files)), path);
      }
    }
  }

  // ---- validation ----

  datatype Entry = Entry(name: string, content: Content, symlink: bool)

  type Archive = seq<Entry>

  datatype Problem =
    | DuplicatePaths | UnsafePath(name: string) | SymbolicLink(name: string) | DirectoryEntry(name: string)
    | MissingManifest | MissingChecksums | BadRecord(error: RecordError) | Unrecorded(name: string) | RecordOfNothing(name: string)
    | Mismatch(name: string) | BadManifest

  function Names(archive: Archive): seq<string> {
    seq(|archive|, i requires 0 <= i < |archive| => archive[i].name)
  }

  predicate Unique(archive: Archive) {
    forall i, j :: 0 <= i < j < |archive| ==> archive[i].name != archive[j].name
  }

  /** The entry read under a name that occurs once. */
  function ContentOf(archive: Archive, name: string): Content
    requires name in Names(archive)
  {
    if archive[0].name == name then archive[0].content
    else
      assert name in Names(archive[1..]) by {
        assert Names(archive)[1..] == Names(archive[1..]);
      }
      ContentOf(archive[1..], name)
  }

  predicate IsDirectory(name: string) {
    name != "" && name[|name| - 1] == '/'
  }

  /** The checks of single entries. */
  predicate Plain(entry: Entry) {
    Safe(entry.name) && !entry.symlink && !IsDirectory(entry.name)
  }

  /** Exactly the files beside the checksum file have records. */
  ghost predicate Recorded(format: Format, archive: Archive, checksums: map<Path, Digest>) {
    forall name :: name in checksums <==> name in Names(archive) && name != format.checksumsName
  }

  ghost predicate Matching(format: Format, archive: Archive, checksums: map<Path, Digest>) {
    forall name :: name in checksums && name in Names(archive) && name != format.checksumsName ==>
      format.digest(ContentOf(archive, name)) == checksums[name]
  }

  ghost predicate Checked(format: Format, archive: Archive, parsed: Parsed) {
    parsed.errors == [] && Recorded(format, archive, parsed.checksums) && Matching(format, archive, parsed.checksums)
  }

  /** What an accepted archive is. `manifestOk` stands for the checks of the manifest and of what it declares. */
  ghost predicate Accepted(format: Format, archive: Archive, manifestOk: bool) {
    && Unique(archive) && (forall i :: 0 <= i < |archive| ==> Plain(archive[i]))
    && format.manifestName in Names(archive) && format.checksumsName in Names(archive) && manifestOk
    && Checked(format, archive, ParseLines(format, Lines(ContentOf(archive, format.checksumsName))))
  }

  function FilesOf(archive: Archive): map<string, Content> {
    map name | name in Names(archive) :: ContentOf(archive, name)
  }

  method CheckEntries(archive: Archive) returns (problems: seq<Problem>)
    ensures problems == [] <==> forall i :: 0 <= i < |archive| ==> Plain(archive[i])
  {
    problems := [];
    for n := 0 to |archive|
      invariant problems == [] <==> forall i :: 0 <= i < n ==> Plain(archive[i])
    {
      var entry := archive[n];
      if !Safe(entry.name) {
        problems := problems + [UnsafePath(entry.name)];
      }
      if entry.symlink {
        problems := problems + [SymbolicLink(entry.name)];
      }
      if IsDirectory(entry.name) {
        problems := problems + [DirectoryEntry(entry.name)];
      }
    }
  }

  function Count(archive: Archive, name: string): nat {
    if archive == [] then 0 else (if archive[0].name == name then 1 else 0) + Count(archive[1..], name)
  }

  lemma {:induction false} CountIsOne(archive: Archive, name: string)
    ensures name in Names(archive) <==> Count(archive, name) > 0
    ensures Unique(archive) ==> Count(archive, name) <= 1
  {
    if archive != [] {
      CountIsOne(archive[1..], name);
      assert Names(archive) == [archive[0].name] + Names(archive[1..]);
      assert Unique(archive) ==> Unique(archive[1..]);
      if Unique(archive) && archive[0].name == name {
        assert forall i :: 0 <= i < |archive[1..]| ==> Names(archive[1..])[i] == archive[i + 1].name != name;
      }
    }
  }

  /** The digest is compared for files that occur once. */
  ghost predicate MatchingOnce(format: Format, archive: Archive, checksums: map<Path, Digest>, names: set<Path>) {
    forall name :: name in checksums && name in names && name in Names(archive) && name != format.checksumsName ==>
      Count(archive, name) == 1 ==> format.digest(ContentOf(archive, name)) == checksums[name]
  }

  lemma OnceIsEnough(format: Format, archive: Archive, checksums: map<Path, Digest>)
    requires Unique(archive)
    ensures MatchingOnce(format, archive, checksums, checksums.Keys) <==> Matching(format, archive, checksums)
  {
    forall name | name in Names(archive) ensures Count(archive, name) == 1 {
      CountIsOne(archive, name);
    }
  }

  method CheckDigests(format: Format, archive: Archive, checksums: map<Path, Digest>) returns (problems: seq<Problem>)
    ensures problems == [] <==> MatchingOnce(format, archive, checksums, checksums.Keys)
  {
    problems := [];
    var left := checksums.Keys;
    while left != {}
      invariant left <= checksums.Keys
      invariant problems == [] <==> MatchingOnce(format, archive, checksums, checksums.Keys - left)
      decreases |left|
    {
      var name :| name in left;
      var before := checksums.Keys - left;
      left := left - {name};
      assert checksums.Keys - left == before + {name};
      if name in Names(archive) && name != format.checksumsName && Count(archive, name) == 1 {
        if format.digest(ContentOf(archive, name)) != checksums[name] {
          problems := problems + [Mismatch(name)];
        }
      }
    }
    assert checksums.Keys - left == checksums.Keys;
  }

  method CheckRecorded(format: Format, archive: Archive, checksums: map<Path, Digest>) returns (problems: seq<Problem>)
    ensures problems == [] <==> Recorded(format, archive, checksums)
  {
    problems := [];
    var names := ContentNames(format, archive);
    var unrecorded := names - checksums.Keys;
    if unrecorded != {} {
      problems := problems + [Unrecorded(SortedNames(unrecorded)[0])];
    }
    var extra := checksums.Keys - names;
    if extra != {} {
      problems := problems + [RecordOfNothing(SortedNames(extra)[0])];
    }
    DifferencesTell(names, checksums.Keys);
  }

  /** All names but that of the checksum file. */
  function ContentNames(format: Format, archive: Archive): (names: set<string>)
    ensures forall name :: name in names <==> name in Names(archive) && name != format.checksumsName
  {
    (set i | 0 <= i < |archive| :: Names(archive)[i]) - {format.checksumsName}
  }

  lemma DifferencesTell(a: set<string>, b: set<string>)
    ensures a - b == {} && b - a == {} <==> forall x :: x in a <==> x in b
  {
    if a - b == {} && b - a == {} {
      forall x ensures x in a <==> x in b {
        assert x !in a - b && x !in b - a;
      }
    }
  }

  /** The records of an archive: none if the checksum file is missing or ambiguous. */
  function ReadRecords(format: Format, archive: Archive): Parsed {
    if format.checksumsName in Names(archive) && Count(archive, format.checksumsName) == 1
    then ParseLines(format, Lines(ContentOf(archive, format.checksumsName))) else Parsed(map[], [])
  }

  method CheckContents(format: Format, archive: Archive) returns (problems: seq<Problem>)
    ensures Unique(archive) ==> (problems == [] <==> Checked(format, archive, ReadRecords(format, archive)))
  {
    problems := [];
    var parsed := Parsed(map[], []);
    if format.checksumsName in Names(archive) && Count(archive, format.checksumsName) == 1 {
      parsed := ParseChecksums(format, ContentOf(archive, format.checksumsName));
    }
    if parsed.errors != [] {
      problems := problems + [BadRecord(parsed.errors[0])];
    }
    var unrecorded := CheckRecorded(format, archive, parsed.checksums);
    var mismatches := CheckDigests(format, archive, parsed.checksums);
    problems := problems + unrecorded + mismatches;
    if Unique(archive) {
      OnceIsEnough(format, archive, parsed.checksums);
    }
  }

  /** `validate_package`: no problem is found exactly when the archive is acceptable. */
  method ValidatePackage(format: Format, archive: Archive, manifestOk: bool) returns (problems: seq<Problem>)
    ensures problems == [] <==> Accepted(format, archive, manifestOk)
  {
    problems := [];
    if !Unique(archive) {
      problems := [DuplicatePaths];
    }
    var entryProblems := CheckEntries(archive);
    problems := problems + entryProblems;
    if format.manifestName !in Names(archive) {
      problems := problems + [MissingManifest];
    }
    if format.checksumsName !in Names(archive) {
      problems := problems + [MissingChecksums];
    }
    var contentProblems := CheckContents(format, archive);
    problems := problems + contentProblems;
    if format.manifestName in Names(archive) && Count(archive, format.manifestName) == 1 && !manifestOk {
      problems := problems + [BadManifest];
    }
    CountIsOne(archive, format.checksumsName);
    CountIsOne(archive, format.manifestName);
  }

  lemma AcceptedName(format: Format, archive: Archive, name: string)
    requires format.checksumsName in Names(archive)
    requires Checked(format, archive, ParseLines(format, Lines(ContentOf(archive, format.checksumsName))))
    ensures var checksums := ParseLines(format, Lines(ContentOf(archive, format.checksumsName))).checksums;
            && (name in Names(archive) <==> name in checksums || name == format.checksumsName)
            && (name in Names(archive) && name != format.checksumsName ==>
                  format.digest(ContentOf(archive, name)) == checksums[name])
  {
  }

  /** Different contents with one digest. */
  ghost predicate Collision(format: Format, a: Content, b: Content) {
    a != b && format.digest(a) == format.digest(b)
  }

  lemma SameChecksumsSameNames(format: Format, a: Archive, b: Archive, name: string)
    requires format.checksumsName in Names(a) && format.checksumsName in Names(b)
    requires Checked(format, a, ParseLines(format, Lines(ContentOf(a, format.checksumsName))))
    requires Checked(format, b, ParseLines(format, Lines(ContentOf(b, format.checksumsName))))
    requires ContentOf(a, format.checksumsName) == ContentOf(b, format.checksumsName)
    ensures name in Names(a) <==> name in Names(b)
    ensures name in Names(a) && name in Names(b) ==> format.digest(ContentOf(a, name)) == format.digest(ContentOf(b, name))
  {
    AcceptedName(format, a, name);
    AcceptedName(format, b, name);
  }

  /** Two accepted archives with the same checksum file hold the same files, or two contents with one digest. */
  lemma ChecksumsDetermineContents(format: Format, a: Archive, b: Archive)
    requires Accepted(format, a, true) && Accepted(format, b, true)
    requires format.checksumsName in Names(a) && format.checksumsName in Names(b)
    requires ContentOf(a, format.checksumsName) == ContentOf(b, format.checksumsName)
    ensures forall name :: name in Names(a) <==> name in Names(b)
    ensures FilesOf(a) == FilesOf(b)
            || exists name :: name in Names(a) && name in Names(b) && Collision(format, ContentOf(a, name), ContentOf(b, name))
  {
    forall name
      ensures name in Names(a) <==> name in Names(b)
      ensures name in Names(a) && name in Names(b) ==> format.digest(ContentOf(a, name)) == format.digest(ContentOf(b, name))
    {
      SameChecksumsSameNames(format, a, b, name);
    }
    if forall name :: name in Names(a) && name in Names(b) ==> !Collision(format, ContentOf(a, name), ContentOf(b, name)) {
      FilesAgree(a, b);
    }
  }

  lemma FilesAgree(a: Archive, b: Archive)
    requires forall name :: name in Names(a) <==> name in Names(b)
    requires forall name :: name in Names(a) && name in Names(b) ==> ContentOf(a, name) == ContentOf(b, name)
    ensures FilesOf(a) == FilesOf(b)
  {
  }

  // ---- packing, extracting, packing again ----

  /** A capability directory: its regular files by relative path, and its symbolic links. */
  datatype Source = Source(files: map<Path, Content>, links: set<Path>)

  /** A relative path as a directory walk yields it. */
  predicate Walked(path: Path) {
    forall i :: 0 <= i < |Split(path)| ==> !Dots(Split(path)[i])
  }

  predicate Dots(part: string) {
    part == "" || part == "." || part == ".."
  }

  function ManifestPath(format: Format, source: Source): Option<Path> {
    if format.manifestName in source.files && format.legacyName in source.files then None
    else if format.manifestName in source.files then Some(format.manifestName)
    else if format.legacyName in source.files then Some(format.legacyName)
    else None
  }

  predicate EndsWith(text: string, suffix: string) {
    |suffix| <= |text| && text[|text| - |suffix|..] == suffix
  }

  predicate Excluded(path: Path) {
    var parts := Split(path);
    var name := parts[|parts| - 1];
    || (exists i :: 0 <= i < |parts| - 1 && parts[i] in [".git", ".pytest_cache", ".venv", "__pycache__"])
    || name == ".env" || EndsWith(name, ".pyc") || EndsWith(name, ".canto")
  }

  lemma ExcludedWord(word: string)
    requires '/' !in word
    ensures Excluded(word) <==> word == ".env" || EndsWith(word, ".pyc") || EndsWith(word, ".canto")
  {
    SplitWord(word);
  }

  lemma EndsAlike(word: string, suffix: string)
    requires EndsWith(word, suffix) && suffix != ""
    ensures word != "" && word[|word| - 1] == suffix[|suffix| - 1]
  {
    assert word[|word| - |suffix|..][|suffix| - 1] == word[|word| - 1];
  }

  lemma WordNotExcluded(word: string)
    requires '/' !in word && word != "" && word[|word| - 1] != 'v' && word[|word| - 1] != 'c' && word[|word| - 1] != 'o'
    ensures !Excluded(word)
  {
    ExcludedWord(word);
    if EndsWith(word, ".pyc") {
      EndsAlike(word, ".pyc");
    }
    if EndsWith(word, ".canto") {
      EndsAlike(word, ".canto");
    }
  }

  /** The reserved names differ, are plain file names, and are not excluded. */
  ghost predicate ProperNames(format: Format) {
    && format.manifestName != format.legacyName && format.manifestName != format.checksumsName
    && format.legacyName != format.checksumsName
    && Walked(format.manifestName) && Walked(format.checksumsName)
    && !format.excludes(format.manifestName) && !format.excludes(format.legacyName)
    && !format.excludes(format.checksumsName)
  }

  lemma ProperWord(word: string, length: nat)
    requires |word| == length > 2 && '/' !in word && word[length - 1] != 'v' && word[length - 1] != 'c' && word[length - 1] != 'o'
    ensures Walked(word) && !Excluded(word)
  {
    SplitWord(word);
    WordNotExcluded(word);
  }

  /** The names and the rule in use. */
  lemma StandardNamesAreProper(format: Format)
    requires forall path :: format.excludes(path) == Excluded(path)
    requires format.manifestName == "canto.yaml" && format.legacyName == "manifest.yaml"
    requires format.checksumsName == "CHECKSUMS.sha256"
    ensures ProperNames(format)
  {
    ProperWord(format.manifestName, 10);
    ProperWord(format.legacyName, 13);
    ProperWord(format.checksumsName, 16);
  }

  function ArchivePath(format: Format, manifest: Path, path: Path): Path {
    if path == manifest then format.manifestName else path
  }

  /** The source file an archive path comes from. */
  function Origin(format: Format, manifest: Path, archivePath: Path): Path {
    if archivePath == format.manifestName then manifest else archivePath
  }

  /** Something at `archivePath` comes from one of the `seen` files. */
  predicate Collectable(format: Format, source: Source, manifest: Path, seen: set<Path>, archivePath: Path) {
    var path := Origin(format, manifest, archivePath);
    && (archivePath == format.manifestName || archivePath != manifest) && archivePath != format.checksumsName
    && path in seen && path in source.files && !format.excludes(path)
  }

  /** The seen files under their archive paths. */
  function CollectedOf(format: Format, source: Source, manifest: Path, seen: set<Path>): map<Path, Content> {
    map archivePath | archivePath in source.files.Keys + {format.manifestName} && Collectable(format, source, manifest, seen, archivePath)
      :: source.files[Origin(format, manifest, archivePath)]
  }

  function Collected(format: Format, source: Source, manifest: Path): map<Path, Content> {
    CollectedOf(format, source, manifest, source.files.Keys)
  }

  lemma InCollectedOf(format: Format, source: Source, manifest: Path, seen: set<Path>, p: Path)
    requires manifest in source.files
    ensures p in CollectedOf(format, source, manifest, seen) <==> Collectable(format, source, manifest, seen, p)
    ensures p in CollectedOf(format, source, manifest, seen) ==>
              CollectedOf(format, source, manifest, seen)[p] == source.files[Origin(format, manifest, p)]
  {
  }

  lemma SameFiles(a: map<Path, Content>, b: map<Path, Content>)
    requires forall path :: path in a <==> path in b
    requires forall path :: path in a && path in b ==> a[path] == b[path]
    ensures a == b
  {
  }

  lemma CollectNext(format: Format, source: Source, manifest: Path, seen: set<Path>, path: Path)
    requires ProperNames(format) && ManifestPath(format, source) == Some(manifest)
    requires path in source.files && path !in seen && seen <= source.files.Keys
    ensures var archivePath := ArchivePath(format, manifest, path);
            && archivePath !in CollectedOf(format, source, manifest, seen)
            && CollectedOf(format, source, manifest, seen + {path})
               == if format.excludes(path) || archivePath == format.checksumsName then CollectedOf(format, source, manifest, seen)
                  else CollectedOf(format, source, manifest, seen)[archivePath := source.files[path]]
  {
    var archivePath := ArchivePath(format, manifest, path);
    var before := CollectedOf(format, source, manifest, seen);
    var after := if format.excludes(path) || archivePath == format.checksumsName then before
                 else before[archivePath := source.files[path]];
    InCollectedOf(format, source, manifest, seen, archivePath);
    forall p
      ensures p in CollectedOf(format, source, manifest, seen + {path}) <==> p in after
      ensures p in CollectedOf(format, source, manifest, seen + {path}) && p in after ==>
                CollectedOf(format, source, manifest, seen + {path})[p] == after[p]
    {
      InCollectedOf(format, source, manifest, seen, p);
      InCollectedOf(format, source, manifest, seen + {path}, p);
    }
    SameFiles(CollectedOf(format, source, manifest, seen + {path}), after);
  }

  lemma TakeNext<T>(q: seq<T>, i: nat)
    requires i < |q|
    ensures q[..i + 1] == q[..i] + [q[i]]
  {
  }

  datatype CollectError = SymlinkFound | GeneratedChecksums | DuplicatePackagePath

  predicate HasChecksums(format: Format, source: Source) {
    format.checksumsName in source.files
  }

  /** One path of the walk. */
  method CollectOne(
    format: Format, source: Source, manifest: Path, replaceChecksums: bool, path: Path, files: map<Path, Content>, ghost seen: set<Path>)
    returns (r: Result<map<Path, Content>, CollectError>)
    requires ProperNames(format) && ManifestPath(format, source) == Some(manifest) && path !in seen && seen <= source.files.Keys
    requires path in source.files || path in source.links
    requires files == CollectedOf(format, source, manifest, seen)
    ensures r.Success? <==> Collects(format, source, replaceChecksums, path)
    ensures r.Success? ==> r.value == CollectedOf(format, source, manifest, seen + {path})
  {
    if path in source.links {
      return Failure(SymlinkFound);
    }
    CollectNext(format, source, manifest, seen, path);
    if format.excludes(path) {
      return Success(files);
    }
    var archivePath := ArchivePath(format, manifest, path);
    if archivePath == format.checksumsName {
      if replaceChecksums {
        return Success(files);
      }
      return Failure(GeneratedChecksums);
    }
    if archivePath in files {
      return Failure(DuplicatePackagePath);
    }
    return Success(files[archivePath := source.files[path]]);
  }

  /** The first `n` paths of the walk, all of them files without objection. */
  ghost predicate Passed(format: Format, source: Source, replaceChecksums: bool, paths: seq<Path>, n: nat, seen: set<Path>)
    requires n <= |paths|
  {
    && (forall p :: p in seen <==> p in paths[..n])
    && (forall p :: p in seen ==> p in source.files && Collects(format, source, replaceChecksums, p))
  }

  /** Neither a link nor a checksum file that must not be there. */
  predicate Collects(format: Format, source: Source, replaceChecksums: bool, path: Path) {
    path !in source.links && (path == format.checksumsName ==> replaceChecksums)
  }

  lemma ObjectionStands(format: Format, source: Source, replaceChecksums: bool, path: Path)
    requires (path in source.files || path in source.links) && !Collects(format, source, replaceChecksums, path)
    ensures !(source.links == {} && (replaceChecksums || !HasChecksums(format, source)))
  {
  }

  lemma PassedNext(format: Format, source: Source, replaceChecksums: bool, paths: seq<Path>, n: nat, seen: set<Path>)
    requires n < |paths| && Passed(format, source, replaceChecksums, paths, n, seen)
    requires forall i, j :: 0 <= i < j < |paths| ==> paths[i] != paths[j]
    ensures paths[n] !in seen && seen <= source.files.Keys
    ensures paths[n] in source.files && Collects(format, source, replaceChecksums, paths[n]) ==>
              Passed(format, source, replaceChecksums, paths, n + 1, seen + {paths[n]})
  {
    TakeNext(paths, n);
  }

  lemma AllPassed(format: Format, source: Source, replaceChecksums: bool, paths: seq<Path>, seen: set<Path>)
    requires forall p :: p in paths <==> p in source.files || p in source.links
    requires Passed(format, source, replaceChecksums, paths, |paths|, seen)
    ensures seen == source.files.Keys && source.links == {} && (replaceChecksums || !HasChecksums(format, source))
  {
    assert paths[..|paths|] == paths;
    forall p ensures p in seen <==> p in source.files.Keys {}
    assert source.links <= seen;
    assert source.links == source.links * seen;
  }

  lemma EmptyCollected(format: Format, source: Source, manifest: Path)
    ensures CollectedOf(format, source, manifest, {}) == map[]
  {
  }

  /** The loop over the walk, up to the first path that must not be there. */
  method CollectPaths(format: Format, source: Source, manifest: Path, replaceChecksums: bool, paths: seq<Path>)
    returns (r: Result<map<Path, Content>, CollectError>)
    requires ProperNames(format) && ManifestPath(format, source) == Some(manifest)
    requires forall i, j :: 0 <= i < j < |paths| ==> paths[i] != paths[j]
    requires forall i :: 0 <= i < |paths| ==> paths[i] in source.files || paths[i] in source.links
    ensures r.Success? ==>
              exists seen :: Passed(format, source, replaceChecksums, paths, |paths|, seen)
                             && r.value == CollectedOf(format, source, manifest, seen)
    ensures r.Failure? ==> exists i :: 0 <= i < |paths| && !Collects(format, source, replaceChecksums, paths[i])
  {
    var files: map<Path, Content> := map[];
    ghost var seen: set<Path> := {};
    EmptyCollected(format, source, manifest);
    for i := 0 to |paths|
      invariant Passed(format, source, replaceChecksums, paths, i, seen)
      invariant files == CollectedOf(format, source, manifest, seen)
    {
      PassedNext(format, source, replaceChecksums, paths, i, seen);
      var one := CollectOne(format, source, manifest, replaceChecksums, paths[i], files, seen);
      if one.Failure? {
        return Failure(one.error);
      }
      seen := seen + {paths[i]};
      files := one.value;
    }
    r := Success(files);
  }

  /** `collect_package_files`, for the manifest that was found. */
  method CollectPackageFiles(format: Format, source: Source, manifest: Path, replaceChecksums: bool)
    returns (r: Result<map<Path, Content>, CollectError>)
    requires ProperNames(format) && ManifestPath(format, source) == Some(manifest)
    ensures r.Success? <==> source.links == {} && (replaceChecksums || !HasChecksums(format, source))
    ensures r.Success? ==> r.value == Collected(format, source, manifest)
  {
    var paths := Walk(source);
    assert forall i :: 0 <= i < |paths| ==> paths[i] in paths;
    r := CollectPaths(format, source, manifest, replaceChecksums, paths);
    if r.Failure? {
      ghost var i :| 0 <= i < |paths| && !Collects(format, source, replaceChecksums, paths[i]);
      ObjectionStands(format, source, replaceChecksums, paths[i]);
    } else {
      ghost var seen :| Passed(format, source, replaceChecksums, paths, |paths|, seen)
        && r.value == CollectedOf(format, source, manifest, seen);
      AllPassed(format, source, replaceChecksums, paths, seen);
    }
  }

  /** Files and links in path order. */
  function Walk(source: Source): (paths: seq<Path>)
    ensures forall p :: p in paths <==> p in source.files || p in source.links
    ensures forall i, j :: 0 <= i < j < |paths| ==> paths[i] != paths[j]
  {
    AscendingIsDistinct(SortedNames(source.files.Keys + source.links));
    SortedNames(source.files.Keys + source.links)
  }

  /** The archive of a file map: an entry for each name, in order. */
  function ArchiveOf(files: map<Path, Content>): (archive: Archive)
    ensures Names(archive) == SortedNames(files.Keys)
    ensures forall i :: 0 <= i < |archive| ==>
      archive[i].name in files && archive[i].content == files[archive[i].name] && !archive[i].symlink
  {
    var names := SortedNames(files.Keys);
    var archive := seq(|names|, i requires 0 <= i < |names| => Entry(names[i], files[names[i]], false));
    assert Names(archive) == names;
    archive
  }

  /** `pack_capability`: the collected files and their checksum file. */
  function Packed(format: Format, source: Source, manifest: Path): Archive {
    var files := Collected(format, source, manifest);
    ArchiveOf(files[format.checksumsName := BuildChecksums(format, files)])
  }

  /** Where an entry is extracted to: empty and `.` components vanish. */
  function Target(name: string): Path {
    var parts := Kept(Split(name));
    if parts == [] then "" else Join(parts)
  }

  function Kept(parts: seq<string>): seq<string> {
    if parts == [] then [] else (if parts[0] == "" || parts[0] == "." then [] else [parts[0]]) + Kept(parts[1..])
  }

  /** The files of the archive by where they are extracted to; of two at one place the later. */
  function Extracted(archive: Archive): map<Path, Content> {
    if archive == [] then map[]
    else
      var last := archive[|archive| - 1];
      Extracted(archive[..|archive| - 1])[Target(last.name) := last.content]
  }

  /** `a` is a directory on the way to `b`. */
  predicate Above(a: Path, b: Path) {
    a + "/" <= b
  }

  /** Its directories can be made, and it is none itself: no file is above it or below it. */
  predicate CanWrite(files: map<Path, Content>, target: Path) {
    target != "" && forall p :: p in files ==> !Above(p, target) && !Above(target, p)
  }

  /** Extraction entry by entry; it stops where the file system refuses a file. */
  function Extract(archive: Archive): Option<map<Path, Content>> {
    if archive == [] then Some(map[])
    else
      var last := archive[|archive| - 1];
      match Extract(archive[..|archive| - 1])
      case None => None
      case Some(files) => if CanWrite(files, Target(last.name)) then Some(files[Target(last.name) := last.content]) else None
  }

  datatype ExtractError = InvalidPackage(problems: seq<Problem>) | CannotExtract

  /** The loop over the entries. */
  method ExtractEntries(archive: Archive) returns (r: Option<map<Path, Content>>)
    ensures r == Extract(archive)
  {
    var files: map<Path, Content> := map[];
    for i := 0 to |archive|
      invariant Extract(archive[..i]) == Some(files)
    {
      var target := Target(archive[i].name);
      assert archive[..i + 1][..i] == archive[..i];
      if !CanWrite(files, target) {
        StaysRefused(archive, i + 1);
        return None;
      }
      files := files[target := archive[i].content];
    }
    assert archive[..|archive|] == archive;
    r := Some(files);
  }

  /** `extract_package`. */
  method ExtractPackage(format: Format, archive: Archive, manifestOk: bool) returns (r: Result<map<Path, Content>, ExtractError>)
    ensures r.Success? <==> Accepted(format, archive, manifestOk) && Apart(Targets(archive))
    ensures r.Success? ==> r.value == Extracted(archive)
    ensures r.Failure? ==> (r.error.InvalidPackage? <==> !Accepted(format, archive, manifestOk))
  {
    var problems := ValidatePackage(format, archive, manifestOk);
    if problems != [] {
      return Failure(InvalidPackage(problems));
    }
    var files := ExtractEntries(archive);
    ExtractIsExact(archive);
    r := if files.Some? then Success(files.value) else Failure(CannotExtract);
  }

  lemma {:induction false} StaysRefused(archive: Archive, n: nat)
    requires n <= |archive| && Extract(archive[..n]).None?
    ensures Extract(archive).None?
    decreases |archive|
  {
    if n < |archive| {
      assert archive[..|archive| - 1][..n] == archive[..n];
      StaysRefused(archive[..|archive| - 1], n);
    } else {
      assert archive[..n] == archive;
    }
  }

  function Targets(archive: Archive): seq<Path> {
    seq(|archive|, i requires 0 <= i < |archive| => Target(archive[i].name))
  }

  /** None is the directory itself, and none a directory on the way to another. */
  ghost predicate Apart(paths: seq<Path>) {
    "" !in paths && forall p, r :: p in paths && r in paths ==> !Above(p, r)
  }

  lemma TargetsNext(archive: Archive)
    requires archive != []
    ensures Targets(archive) == Targets(archive[..|archive| - 1]) + [Target(archive[|archive| - 1].name)]
  {
  }

  lemma {:induction false} ExtractedTargets(archive: Archive, path: Path)
    ensures path in Extracted(archive) <==> path in Targets(archive)
    decreases |archive|
  {
    if archive != [] {
      ExtractedTargets(archive[..|archive| - 1], path);
      TargetsNext(archive);
    }
  }

  lemma NotAboveItself(path: Path)
    ensures !Above(path, path)
  {
  }

  lemma LastFits(before: seq<Path>, files: map<Path, Content>, target: Path)
    requires forall p :: p in files <==> p in before
    ensures Apart(before + [target]) <==> Apart(before) && CanWrite(files, target)
  {
    NotAboveItself(target);
    assert forall p :: p in before + [target] <==> p in before || p == target;
  }

  /** Extraction succeeds exactly when no target is above another, whatever the order of the entries. */
  lemma {:induction false} ExtractIsExact(archive: Archive)
    ensures Extract(archive) == if Apart(Targets(archive)) then Some(Extracted(archive)) else None
    decreases |archive|
  {
    if archive != [] {
      var before := archive[..|archive| - 1];
      ExtractIsExact(before);
      forall p ensures p in Extracted(before) <==> p in Targets(before) {
        ExtractedTargets(before, p);
      }
      LastFits(Targets(before), Extracted(before), Target(archive[|archive| - 1].name));
      TargetsNext(archive);
    }
  }

  lemma {:induction false} WalkedKept(parts: seq<string>)
    requires forall i :: 0 <= i < |parts| ==> !Dots(parts[i])
    ensures Kept(parts) == parts
  {
    if parts != [] {
      WalkedKept(parts[1..]);
    }
  }

  lemma DirectoryPart(path: Path) returns (i: nat)
    requires IsDirectory(path)
    ensures i < |Split(path)| && Dots(Split(path)[i])
  {
    var front := path[..|path| - 1];
    assert path == front + "/" + "";
    SplitConcat(front, "");
    i := |Split(front)|;
  }

  lemma WalkedIsPlain(path: Path)
    requires Walked(path)
    ensures Safe(path) && !IsDirectory(path) && Target(path) == path
  {
    WalkedKept(Split(path));
    JoinSplit(path);
    if IsDirectory(path) {
      var _ := DirectoryPart(path);
    }
    assert !Dots(Split(path)[0]);
    forall i | 0 <= i < |Split(path)| ensures Split(path)[i] != ".." {
      assert !Dots(Split(path)[i]);
    }
  }

  lemma {:induction false} UniqueContent(archive: Archive, i: nat)
    requires i < |archive| && Unique(archive)
    ensures archive[i].name in Names(archive) && ContentOf(archive, archive[i].name) == archive[i].content
  {
    assert Names(archive)[i] == archive[i].name;
    if archive[0].name != archive[i].name {
      assert Names(archive)[1..] == Names(archive[1..]);
      UniqueContent(archive[1..], i - 1);
    }
  }

  lemma ArchiveOfHolds(files: map<Path, Content>, name: Path)
    requires name in files && Unique(ArchiveOf(files))
    ensures name in Names(ArchiveOf(files)) && ContentOf(ArchiveOf(files), name) == files[name]
  {
    var names := SortedNames(files.Keys);
    assert name in names;
    var i :| 0 <= i < |names| && names[i] == name;
    assert Names(ArchiveOf(files))[i] == ArchiveOf(files)[i].name;
    UniqueContent(ArchiveOf(files), i);
  }

  lemma ArchiveOfIsUnique(files: map<Path, Content>)
    ensures Unique(ArchiveOf(files))
    ensures forall name :: name in Names(ArchiveOf(files)) <==> name in files
    ensures forall name :: name in files ==> ContentOf(ArchiveOf(files), name) == files[name]
  {
    var archive := ArchiveOf(files);
    AscendingIsDistinct(SortedNames(files.Keys));
    assert forall i :: 0 <= i < |archive| ==> Names(archive)[i] == archive[i].name;
    forall name | name in files ensures ContentOf(archive, name) == files[name] {
      ArchiveOfHolds(files, name);
    }
  }

  lemma ExtractedFrom(archive: Archive, path: Path)
    requires forall i :: 0 <= i < |archive| ==> Target(archive[i].name) == archive[i].name
    ensures path in Extracted(archive) <==> path in Names(archive)
  {
    ExtractedTargets(archive, path);
    assert Targets(archive) == Names(archive);
  }

  lemma {:induction false} ExtractedHolds(archive: Archive, i: nat)
    requires Unique(archive) && forall j :: 0 <= j < |archive| ==> Target(archive[j].name) == archive[j].name
    requires i < |archive|
    ensures archive[i].name in Extracted(archive) && Extracted(archive)[archive[i].name] == archive[i].content
    decreases |archive|
  {
    if i < |archive| - 1 {
      ExtractedHolds(archive[..|archive| - 1], i);
    }
  }

  /** Extracting the archive of a file map writes that map. */
  lemma ExtractArchiveOf(files: map<Path, Content>)
    requires forall name :: name in files ==> Target(name) == name
    ensures Extracted(ArchiveOf(files)) == files
  {
    var archive := ArchiveOf(files);
    ArchiveOfIsUnique(files);
    forall path ensures path in Extracted(archive) <==> path in files {
      ExtractedFrom(archive, path);
    }
    forall path | path in files ensures path in Extracted(archive) && Extracted(archive)[path] == files[path] {
      assert path in Names(archive);
      var i :| 0 <= i < |archive| && Names(archive)[i] == path;
      ExtractedHolds(archive, i);
    }
    SameFiles(Extracted(archive), files);
  }

  lemma InCollected(format: Format, source: Source, manifest: Path, archivePath: Path)
    requires ProperNames(format) && ManifestPath(format, source) == Some(manifest)
    ensures archivePath in Collected(format, source, manifest) <==>
              Collectable(format, source, manifest, source.files.Keys, archivePath)
    ensures archivePath in Collected(format, source, manifest) ==>
              Collected(format, source, manifest)[archivePath] == source.files[Origin(format, manifest, archivePath)]
  {
  }

  lemma CollectedIsWalked(format: Format, source: Source, manifest: Path, path: Path)
    requires ProperNames(format) && ManifestPath(format, source) == Some(manifest) && forall p :: p in source.files ==> Walked(p)
    requires path in Collected(format, source, manifest)
    ensures Walked(path) && path != format.checksumsName && !format.excludes(path)
  {
  }

  lemma ManifestIsCollected(format: Format, source: Source, manifest: Path)
    requires ProperNames(format) && ManifestPath(format, source) == Some(manifest)
    ensures format.manifestName in Collected(format, source, manifest) && format.legacyName !in Collected(format, source, manifest)
  {
    InCollected(format, source, manifest, format.manifestName);
    InCollected(format, source, manifest, format.legacyName);
  }

  /** A packed directory is acceptable exactly when its manifest is and no collected path spans lines. */
  lemma PackedIsAccepted(format: Format, source: Source, manifest: Path, manifestOk: bool)
    requires Good(format)
    requires ProperNames(format) && ManifestPath(format, source) == Some(manifest) && forall p :: p in source.files ==> Walked(p)
    ensures Accepted(format, Packed(format, source, manifest), manifestOk) <==>
              manifestOk && forall path :: path in Collected(format, source, manifest) ==> OneLine(path)
  {
    var files := Collected(format, source, manifest);
    var whole := files[format.checksumsName := BuildChecksums(format, files)];
    var archive := ArchiveOf(whole);
    ArchiveOfIsUnique(whole);
    forall i | 0 <= i < |archive| ensures Plain(archive[i]) {
      PackedIsPlain(format, source, manifest, archive[i].name);
    }
    ManifestIsCollected(format, source, manifest);
    RecordableIfOneLine(format, source, manifest);
    ChecksumsRoundTrip(format, files);
    CheckedIsRoundTrip(format, archive, files, ParseLines(format, Lines(whole[format.checksumsName])));
  }

  lemma PackedIsPlain(format: Format, source: Source, manifest: Path, path: Path)
    requires ProperNames(format) && ManifestPath(format, source) == Some(manifest) && forall p :: p in source.files ==> Walked(p)
    requires path in Collected(format, source, manifest) || path == format.checksumsName
    ensures Safe(path) && !IsDirectory(path)
  {
    if path in Collected(format, source, manifest) {
      CollectedIsWalked(format, source, manifest, path);
    }
    WalkedIsPlain(path);
  }

  lemma RecordableIfOneLine(format: Format, source: Source, manifest: Path)
    requires ProperNames(format) && ManifestPath(format, source) == Some(manifest) && forall p :: p in source.files ==> Walked(p)
    ensures format.checksumsName !in Collected(format, source, manifest)
    ensures (forall path :: path in Collected(format, source, manifest) ==> Recordable(format, path)) <==>
            (forall path :: path in Collected(format, source, manifest) ==> OneLine(path))
  {
    forall path | path in Collected(format, source, manifest)
      ensures path != format.checksumsName && (Recordable(format, path) <==> OneLine(path))
    {
      CollectedIsWalked(format, source, manifest, path);
      WalkedIsPlain(path);
    }
  }

  lemma CheckedIsRoundTrip(format: Format, archive: Archive, files: map<Path, Content>, parsed: Parsed)
    requires format.checksumsName !in files
    requires forall name :: name in Names(archive) <==> name in files || name == format.checksumsName
    requires forall name :: name in files ==> ContentOf(archive, name) == files[name]
    ensures Checked(format, archive, parsed) <==> parsed == Parsed(Digests(format, files), [])
  {
    if Checked(format, archive, parsed) {
      assert parsed.checksums == Digests(format, files);
    }
  }

  /** A directory that holds collected files under their archive paths, and a checksum file, is collected as it is. */
  lemma CollectAgain(format: Format, source: Source, manifest: Path, whole: map<Path, Content>, path: Path)
    requires ProperNames(format) && ManifestPath(format, source) == Some(manifest) && forall p :: p in source.files ==> Walked(p)
    requires ManifestPath(format, Source(whole, {})) == Some(format.manifestName)
    requires path in whole <==> path in Collected(format, source, manifest) || path == format.checksumsName
    ensures path in Collected(format, Source(whole, {}), format.manifestName) <==> path in Collected(format, source, manifest)
    ensures path in Collected(format, Source(whole, {}), format.manifestName) ==>
              Collected(format, Source(whole, {}), format.manifestName)[path] == whole[path]
  {
    InCollected(format, Source(whole, {}), format.manifestName, path);
    if path in Collected(format, source, manifest) {
      CollectedIsWalked(format, source, manifest, path);
    }
  }

  lemma PackedExtracts(format: Format, source: Source, manifest: Path)
    requires ProperNames(format) && ManifestPath(format, source) == Some(manifest) && forall p :: p in source.files ==> Walked(p)
    ensures var files := Collected(format, source, manifest);
            Extracted(Packed(format, source, manifest)) == files[format.checksumsName := BuildChecksums(format, files)]
  {
    var files := Collected(format, source, manifest);
    var whole := files[format.checksumsName := BuildChecksums(format, files)];
    forall path | path in whole ensures Target(path) == path {
      if path != format.checksumsName {
        CollectedIsWalked(format, source, manifest, path);
      }
      WalkedIsPlain(path);
    }
    ExtractArchiveOf(whole);
  }

  lemma CollectTwiceAt(format: Format, source: Source, manifest: Path, whole: map<Path, Content>, path: Path)
    requires ProperNames(format) && ManifestPath(format, source) == Some(manifest) && forall p :: p in source.files ==> Walked(p)
    requires ManifestPath(format, Source(whole, {})) == Some(format.manifestName)
    requires path in whole <==> path in Collected(format, source, manifest) || path == format.checksumsName
    requires path in Collected(format, source, manifest) ==> whole[path] == Collected(format, source, manifest)[path]
    ensures path in Collected(format, Source(whole, {}), format.manifestName) <==> path in Collected(format, source, manifest)
    ensures path in Collected(format, source, manifest) && path in Collected(format, Source(whole, {}), format.manifestName) ==>
              Collected(format, Source(whole, {}), format.manifestName)[path] == Collected(format, source, manifest)[path]
  {
    CollectAgain(format, source, manifest, whole, path);
  }

  lemma CollectTwice(format: Format, source: Source, manifest: Path, text: Content, whole: map<Path, Content>)
    requires ProperNames(format) && ManifestPath(format, source) == Some(manifest) && forall p :: p in source.files ==> Walked(p)
    requires whole == Collected(format, source, manifest)[format.checksumsName := text] && format.checksumsName !in Collected(format, source, manifest)
    requires ManifestPath(format, Source(whole, {})) == Some(format.manifestName)
    ensures Collected(format, Source(whole, {}), format.manifestName) == Collected(format, source, manifest)
  {
    var files := Collected(format, source, manifest);
    var again := Collected(format, Source(whole, {}), format.manifestName);
    forall path
      ensures path in again <==> path in files
      ensures path in again && path in files ==> again[path] == files[path]
    {
      CollectTwiceAt(format, source, manifest, whole, path);
    }
    SameFiles(again, files);
  }

  lemma ManifestStays(format: Format, source: Source, manifest: Path, text: Content, whole: map<Path, Content>)
    requires ProperNames(format) && ManifestPath(format, source) == Some(manifest)
    requires whole == Collected(format, source, manifest)[format.checksumsName := text]
    ensures ManifestPath(format, Source(whole, {})) == Some(format.manifestName)
    ensures format.checksumsName !in Collected(format, source, manifest)
  {
    ManifestIsCollected(format, source, manifest);
    InCollected(format, source, manifest, format.checksumsName);
  }

  /** The places of a packed directory's files, and of its checksum file. */
  ghost predicate PackedApart(format: Format, source: Source, manifest: Path) {
    var paths := Collected(format, source, manifest).Keys + {format.checksumsName};
    forall a, b :: a in paths && b in paths ==> !Above(a, b)
  }

  lemma ApartByMembers(q: seq<Path>, paths: set<Path>)
    requires (forall p :: p in q <==> p in paths) && "" !in paths
    ensures Apart(q) <==> forall a, b :: a in paths && b in paths ==> !Above(a, b)
  {
  }

  lemma PackedNames(format: Format, source: Source, manifest: Path, path: Path)
    ensures path in Names(Packed(format, source, manifest)) <==>
              path in Collected(format, source, manifest).Keys + {format.checksumsName}
  {
    var files := Collected(format, source, manifest);
    ArchiveOfIsUnique(files[format.checksumsName := BuildChecksums(format, files)]);
  }

  lemma TargetsAreNames(format: Format, source: Source, manifest: Path)
    requires ProperNames(format) && ManifestPath(format, source) == Some(manifest) && forall p :: p in source.files ==> Walked(p)
    ensures Targets(Packed(format, source, manifest)) == Names(Packed(format, source, manifest))
  {
    var archive := Packed(format, source, manifest);
    forall i | 0 <= i < |archive| ensures Target(archive[i].name) == archive[i].name {
      assert Names(archive)[i] == archive[i].name;
      PackedNames(format, source, manifest, archive[i].name);
      TargetOfPacked(format, source, manifest, archive[i].name);
    }
  }

  lemma PackedTargets(format: Format, source: Source, manifest: Path)
    requires ProperNames(format) && ManifestPath(format, source) == Some(manifest) && forall p :: p in source.files ==> Walked(p)
    ensures Apart(Targets(Packed(format, source, manifest))) <==> PackedApart(format, source, manifest)
  {
    var paths := Collected(format, source, manifest).Keys + {format.checksumsName};
    TargetsAreNames(format, source, manifest);
    forall p ensures p in Names(Packed(format, source, manifest)) <==> p in paths {
      PackedNames(format, source, manifest, p);
    }
    if "" in paths {
      PackedIsPlain(format, source, manifest, "");
    }
    ApartByMembers(Names(Packed(format, source, manifest)), paths);
  }

  lemma TargetOfPacked(format: Format, source: Source, manifest: Path, path: Path)
    requires ProperNames(format) && ManifestPath(format, source) == Some(manifest) && forall p :: p in source.files ==> Walked(p)
    requires path in Collected(format, source, manifest) || path == format.checksumsName
    ensures Target(path) == path
  {
    if path in Collected(format, source, manifest) {
      CollectedIsWalked(format, source, manifest, path);
    }
    WalkedIsPlain(path);
  }

  /**
   * What was packed can be extracted exactly when no collected path, nor the checksum file's, is a directory on the way
   * to another; then collecting again, old checksums replaced, gives the same files.
   */
  lemma PackRoundTrip(format: Format, source: Source, manifest: Path)
    requires ProperNames(format) && ManifestPath(format, source) == Some(manifest) && forall p :: p in source.files ==> Walked(p)
    ensures Extract(Packed(format, source, manifest)).Some? <==> PackedApart(format, source, manifest)
    ensures PackedApart(format, source, manifest) ==>
              var extracted := Source(Extract(Packed(format, source, manifest)).value, {});
              && ManifestPath(format, extracted) == Some(format.manifestName)
              && Collected(format, extracted, format.manifestName) == Collected(format, source, manifest)
  {
    var text := BuildChecksums(format, Collected(format, source, manifest));
    var whole := Extracted(Packed(format, source, manifest));
    ExtractIsExact(Packed(format, source, manifest));
    PackedTargets(format, source, manifest);
    PackedExtracts(format, source, manifest);
    ManifestStays(format, source, manifest, text, whole);
    CollectTwice(format, source, manifest, text, whole);
  }

  /** No path is both a file and a directory. */
  ghost predicate IsTree(source: Source) {
    forall a, b :: a in source.files && b in source.files ==> !Above(a, b)
  }

  lemma WordAboveNone(a: Path, word: Path)
    requires '/' !in word
    ensures !Above(a, word)
  {
    if Above(a, word) {
      HasSlash(a, word);
    }
  }

  lemma HasSlash(a: Path, b: Path)
    requires Above(a, b)
    ensures '/' in b
  {
    assert b[|a|] == '/';
  }

  /** In a real directory only the names that packing gives can clash: a directory named as the manifest or the checksum file. */
  lemma OnlyReservedNamesClash(format: Format, source: Source, manifest: Path)
    requires ProperNames(format) && ManifestPath(format, source) == Some(manifest)
    requires IsTree(source) && '/' !in format.manifestName && '/' !in format.checksumsName
    ensures PackedApart(format, source, manifest) <==>
              forall p :: p in Collected(format, source, manifest) ==> !Above(format.manifestName, p) && !Above(format.checksumsName, p)
  {
    ManifestIsCollected(format, source, manifest);
    if forall p :: p in Collected(format, source, manifest) ==> !Above(format.manifestName, p) && !Above(format.checksumsName, p) {
      var paths := Collected(format, source, manifest).Keys + {format.checksumsName};
      forall a, b | a in paths && b in paths ensures !Above(a, b) {
        WordAboveNone(a, format.manifestName);
        WordAboveNone(a, format.checksumsName);
        if b in Collected(format, source, manifest) && a in Collected(format, source, manifest) {
          InCollected(format, source, manifest, a);
          InCollected(format, source, manifest, b);
        }
      }
    }
  }

  /** A manifest under its old name beside a directory of the new name that holds `inner`. */
  function Clashing(format: Format, inner: Path, text: Content, other: Content): Source {
    Source(map[format.legacyName := text, inner := other], {})
  }

  ghost predicate IsInner(format: Format, inner: Path) {
    && Above(format.manifestName, inner) && inner != format.legacyName && inner != format.checksumsName
    && Walked(inner) && !format.excludes(inner) && OneLine(inner) && OneLine(format.manifestName) && Walked(format.legacyName)
  }

  lemma ClashCollects(format: Format, inner: Path, text: Content, other: Content, path: Path)
    requires ProperNames(format) && IsInner(format, inner)
    ensures ManifestPath(format, Clashing(format, inner, text, other)) == Some(format.legacyName)
    ensures path in Collected(format, Clashing(format, inner, text, other), format.legacyName) <==>
              path == format.manifestName || path == inner
  {
    var source := Clashing(format, inner, text, other);
    NotAboveItself(inner);
    assert ManifestPath(format, source) == Some(format.legacyName);
    InCollected(format, source, format.legacyName, path);
  }

  lemma ClashClashes(format: Format, inner: Path, text: Content, other: Content)
    requires ProperNames(format) && IsInner(format, inner)
    ensures !PackedApart(format, Clashing(format, inner, text, other), format.legacyName)
  {
    ClashCollects(format, inner, text, other, inner);
    ClashCollects(format, inner, text, other, format.manifestName);
  }

  lemma ClashIsOneLine(format: Format, inner: Path, text: Content, other: Content)
    requires ProperNames(format) && IsInner(format, inner)
    ensures forall path :: path in Collected(format, Clashing(format, inner, text, other), format.legacyName) ==> OneLine(path)
  {
    forall path | path in Collected(format, Clashing(format, inner, text, other), format.legacyName) ensures OneLine(path) {
      ClashCollects(format, inner, text, other, path);
    }
  }

  /** It is packed and accepted, but cannot be extracted. */
  lemma ClashingPackage(format: Format, inner: Path, text: Content, other: Content)
    requires Good(format) && ProperNames(format) && IsInner(format, inner)
    ensures var source := Clashing(format, inner, text, other);
            && ManifestPath(format, source) == Some(format.legacyName)
            && Accepted(format, Packed(format, source, format.legacyName), true)
            && Extract(Packed(format, source, format.legacyName)).None?
  {
    var source := Clashing(format, inner, text, other);
    ClashCollects(format, inner, text, other, inner);
    ClashClashes(format, inner, text, other);
    ClashIsOneLine(format, inner, text, other);
    PackedIsAccepted(format, source, format.legacyName, true);
    PackRoundTrip(format, source, format.legacyName);
  }

  lemma InnerFile(directory: string, name: string)
    requires '/' !in directory && '/' !in name && !Dots(directory) && !Dots(name) && |name| == 1
    requires directory !in [".git", ".pytest_cache", ".venv", "__pycache__"]
    ensures Walked(directory + "/" + name) && !Excluded(directory + "/" + name)
  {
    SplitConcat(directory, name);
    SplitWord(directory);
    SplitWord(name);
    assert Split(directory + "/" + name) == [directory, name];
    assert |".env"| == 4;
  }

  lemma InnerIsOneLine(directory: string)
    requires OneLine(directory)
    ensures Above(directory, directory + "/" + "x") && OneLine(directory + "/" + "x")
  {
    assert OneLine("/") && OneLine("x");
  }

  lemma ManifestNameIsPlain(name: string)
    requires name == "canto.yaml"
    ensures OneLine(name) && '/' !in name && !Dots(name) && name !in [".git", ".pytest_cache", ".venv", "__pycache__"]
  {
    assert forall c :: c in name ==> c in ['c', 'a', 'n', 't', 'o', '.', 'y', 'm', 'l'];
  }

  lemma StandardInner(format: Format)
    requires ProperNames(format) && Walked(format.legacyName) && forall path :: format.excludes(path) == Excluded(path)
    requires format.manifestName == "canto.yaml" && '/' !in format.legacyName && '/' !in format.checksumsName
    ensures IsInner(format, format.manifestName + "/" + "x")
  {
    ManifestNameIsPlain(format.manifestName);
    InnerIsOneLine(format.manifestName);
    InnerFile(format.manifestName, "x");
    HasSlash(format.manifestName, format.manifestName + "/" + "x");
  }

  lemma OtherNamesArePlain(legacy: string, checksums: string)
    requires legacy == "manifest.yaml" && checksums == "CHECKSUMS.sha256"
    ensures '/' !in legacy && '/' !in checksums && Walked(legacy)
  {
    ProperWord(legacy, 13);
  }

  /** With the names in use: `manifest.yaml` beside a directory `canto.yaml` with a file `x`. */
  lemma AcceptedButNotExtractable(format: Format, text: Content, other: Content)
    requires Good(format) && forall path :: format.excludes(path) == Excluded(path)
    requires format.manifestName == "canto.yaml" && format.legacyName == "manifest.yaml"
    requires format.checksumsName == "CHECKSUMS.sha256"
    ensures var source := Clashing(format, format.manifestName + "/" + "x", text, other);
            && ManifestPath(format, source) == Some(format.legacyName)
            && Accepted(format, Packed(format, source, format.legacyName), true)
            && Extract(Packed(format, source, format.legacyName)).None?
  {
    StandardNamesAreProper(format);
    OtherNamesArePlain(format.legacyName, format.checksumsName);
    StandardInner(format);
    ClashingPackage(format, format.manifestName + "/" + "x", text, other);
  }
}
