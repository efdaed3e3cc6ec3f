// NUL-delimited Git evidence (repository.py:726-826): index entries, tree entries
// and path lists.  A path is kept as its normalised POSIX text.

module GitEvidence {
  import opened Domain

  datatype EvidenceError =
    | NotTerminated
    | EmptyRecord
    | Malformed
    | UnknownTag
    | UnsupportedMode
    | InvalidStage
    | InvalidObject
    | UnsafePath
    | DuplicatePath
    | MixedFormats

  // ----- splitting and joining text -----

  /** text.split(c): the pieces between the occurrences of c. */
  function Split(text: string, c: char): (pieces: seq<string>)
    ensures |pieces| >= 1
  {
    if text == "" then [""]
    else if text[0] == c then [""] + Split(text[1..], c)
    else
      var rest := Split(text[1..], c);
      [[text[0]] + rest[0]] + rest[1..]
  }

  function Join(pieces: seq<string>, c: char): string {
    if pieces == [] then "" else if |pieces| == 1 then pieces[0] else pieces[0] + [c] + Join(pieces[1..], c)
  }

  lemma {:induction false} SplitPieces(text: string, c: char)
    ensures forall p | p in Split(text, c) :: c !in p
    ensures Join(Split(text, c), c) == text
    decreases |text|
  {
    if text != "" {
      SplitPieces(text[1..], c);
      var rest := Split(text[1..], c);
      assert text == [text[0]] + text[1..];
      if text[0] == c {
        assert Split(text, c)[1..] == rest;
      } else {
        var pieces := Split(text, c);
        assert pieces[1..] == rest[1..];
        forall p | p in pieces ensures c !in p {
          if p != pieces[0] {
            assert p in rest;
          } else {
            assert rest[0] in rest;
          }
        }
      }
    }
  }

  lemma {:induction false} SplitPlain(piece: string, c: char)
    requires c !in piece
    ensures Split(piece, c) == [piece]
    decreases |piece|
  {
    if piece != "" {
      assert piece[0] in piece && c !in piece[1..];
      SplitPlain(piece[1..], c);
      assert [piece[0]] + piece[1..] == piece;
    }
  }

  lemma {:induction false} SplitFirst(piece: string, text: string, c: char)
    requires c !in piece
    ensures Split(piece + [c] + text, c) == [piece] + Split(text, c)
    decreases |piece|
  {
    var whole := piece + [c] + text;
    if piece == "" {
      assert whole[1..] == text;
    } else {
      assert piece[0] in piece && c !in piece[1..];
      SplitFirst(piece[1..], text, c);
      assert whole[1..] == piece[1..] + [c] + text;
      assert Split(whole, c)[0] == [piece[0]] + piece[1..] == piece;
    }
  }

  lemma {:induction false} SplitJoined(pieces: seq<string>, c: char)
    requires pieces != [] && forall p | p in pieces :: c !in p
    ensures Split(Join(pieces, c), c) == pieces
    decreases |pieces|
  {
    assert pieces[0] in pieces;
    if |pieces| == 1 {
      SplitPlain(pieces[0], c);
    } else {
      assert forall p | p in pieces[1..] :: p in pieces;
      SplitJoined(pieces[1..], c);
      SplitFirst(pieces[0], Join(pieces[1..], c), c);
    }
  }

  // ----- records -----

  const NUL: char := '\0'

  /** repository.py:791-801. */
  function SplitRecords(stdout: string): Result<seq<string>, EvidenceError> {
    if stdout == "" then Ok([])
    else if stdout[|stdout| - 1] != NUL then Err(NotTerminated)
    else
      var pieces := Split(stdout, NUL);
      var records := pieces[..|pieces| - 1];
      if "" in records then Err(EmptyRecord) else Ok(records)
  }

  /** Each record followed by a NUL. */
  function Terminated(records: seq<string>): string {
    if records == [] then "" else records[0] + [NUL] + Terminated(records[1..])
  }

  predicate Plain(records: seq<string>) {
    forall r | r in records :: r != "" && NUL !in r
  }

  lemma {:induction false} TerminatedSplits(records: seq<string>)
    requires forall r | r in records :: NUL !in r
    ensures Split(Terminated(records), NUL) == records + [""]
    ensures records != [] ==> Terminated(records) != "" && Terminated(records)[|Terminated(records)| - 1] == NUL
    decreases |records|
  {
    if records != [] {
      assert records[0] in records && forall r | r in records[1..] :: r in records;
      TerminatedSplits(records[1..]);
      SplitFirst(records[0], Terminated(records[1..]), NUL);
      assert records == [records[0]] + records[1..];
    }
  }

  lemma {:induction false} JoinTerminated(records: seq<string>)
    ensures Join(records + [""], NUL) == Terminated(records)
    decreases |records|
  {
    if records == [] {
      assert records + [""] == [""];
    } else {
      var all := records + [""];
      assert all[1..] == records[1..] + [""];
      JoinTerminated(records[1..]);
    }
  }

  lemma {:induction false} LastPiece(text: string, c: char)
    requires text != "" && text[|text| - 1] == c
    ensures var pieces := Split(text, c); |pieces| >= 2 && pieces[|pieces| - 1] == ""
    decreases |text|
  {
    if |text| == 1 {
      assert text[1..] == "";
    } else {
      assert text[1..][|text| - 2] == c;
      LastPiece(text[1..], c);
    }
  }

  /** Splitting accepts exactly the terminated, nonempty, NUL-free records, and
      undoes terminating them. */
  lemma {:induction false} RecordsInvert(stdout: string, records: seq<string>)
    ensures SplitRecords(stdout) == Ok(records) <==> Plain(records) && stdout == Terminated(records)
  {
    if Plain(records) && stdout == Terminated(records) {
      TerminatedSplits(records);
      if records != [] {
        var pieces := Split(stdout, NUL);
        assert pieces[..|pieces| - 1] == records;
      }
    }
    if SplitRecords(stdout) == Ok(records) {
      if stdout != "" {
        SplitPieces(stdout, NUL);
        LastPiece(stdout, NUL);
        var pieces := Split(stdout, NUL);
        assert pieces == records + [""];
        JoinTerminated(records);
        assert forall r | r in records :: r in pieces;
      }
    }
  }

  // ----- paths -----

  predicate Part(p: string) {
    p != "" && p != "." && '/' !in p
  }

  /** Path(raw).parts: empty and dot components disappear. */
  function Kept(pieces: seq<string>): seq<string> {
    if pieces == [] then []
    else if pieces[0] == "" || pieces[0] == "." then Kept(pieces[1..])
    else [pieces[0]] + Kept(pieces[1..])
  }

  /** path.as_posix(), which determines a relative path. */
  function PosixText(parts: seq<string>): string {
    if parts == [] then "." else Join(parts, '/')
  }

  /** path.parts of a normalised path. */
  function Parts(path: string): seq<string> {
    Kept(Split(path, '/'))
  }

  /** repository.py:804-812. */
  function ParsePath(raw: string): Result<string, EvidenceError> {
    if raw == "" || raw[0] == '/' || ".." in Parts(raw) then Err(UnsafePath) else Ok(PosixText(Parts(raw)))
  }

  /** Normalised, relative and without a parent component. */
  predicate SafePath(path: string) {
    path != "" && path[0] != '/' && ".." !in Parts(path) && path == PosixText(Parts(path))
  }

  lemma {:induction false} KeptParts(pieces: seq<string>, c: char)
    requires forall p | p in pieces :: c !in p
    ensures forall p | p in Kept(pieces) :: p in pieces && p != "" && p != "." && c !in p
    decreases |pieces|
  {
    if pieces != [] {
      assert pieces[0] in pieces && forall p | p in pieces[1..] :: p in pieces;
      KeptParts(pieces[1..], c);
    }
  }

  lemma {:induction false} KeptAll(pieces: seq<string>)
    requires forall p | p in pieces :: p != "" && p != "."
    ensures Kept(pieces) == pieces
    decreases |pieces|
  {
    if pieces != [] {
      assert pieces[0] in pieces && forall p | p in pieces[1..] :: p in pieces;
      KeptAll(pieces[1..]);
      assert pieces == [pieces[0]] + pieces[1..];
    }
  }

  /** The text of a path gives its parts back: two paths are equal exactly if
      their texts are. */
  lemma {:induction false} PartsOfText(parts: seq<string>)
    requires forall p | p in parts :: Part(p)
    ensures Parts(PosixText(parts)) == parts
  {
    if parts == [] {
      SplitPlain(".", '/');
      assert Kept(["."]) == Kept([".."[1..]][1..]);
    } else {
      SplitJoined(parts, '/');
      KeptAll(parts);
    }
  }

  /** An accepted path is safe, and is accepted as itself. */
  lemma {:induction false} ParsedPath(raw: string)
    requires ParsePath(raw).Ok?
    ensures SafePath(ParsePath(raw).value) && ParsePath(ParsePath(raw).value) == ParsePath(raw)
    ensures forall c | c in ParsePath(raw).value && c != '.' && c != '/' :: c in raw
  {
    var parts := Parts(raw);
    SplitPieces(raw, '/');
    KeptParts(Split(raw, '/'), '/');
    PartsOfText(parts);
    forall c | c in PosixText(parts) && c != '.' && c != '/' ensures c in raw {
      JoinedChars(parts, '/', c);
      var p :| p in parts && c in p;
      PieceChars(raw, '/', p, c);
    }
    if parts != [] {
      assert parts[0] in parts;
      assert PosixText(parts)[0] == parts[0][0];
      assert parts[0][0] in parts[0];
    }
  }

  lemma {:induction false} JoinedChars(pieces: seq<string>, sep: char, c: char)
    requires c in Join(pieces, sep) && c != sep
    ensures exists p :: p in pieces && c in p
    decreases |pieces|
  {
    if |pieces| > 1 {
      if c in pieces[0] {
        assert pieces[0] in pieces;
      } else {
        JoinedChars(pieces[1..], sep, c);
        var p :| p in pieces[1..] && c in p;
        assert p in pieces;
      }
    } else {
      assert pieces[0] in pieces;
    }
  }

  lemma {:induction false} PieceChars(text: string, sep: char, p: string, c: char)
    requires p in Split(text, sep) && c in p
    ensures c in text
    decreases |text|
  {
    if text != "" {
      var rest := Split(text[1..], sep);
      if p in rest {
        PieceChars(text[1..], sep, p, c);
      } else if text[0] != sep {
        assert p == [text[0]] + rest[0];
        if c in rest[0] {
          PieceChars(text[1..], sep, rest[0], c);
        }
      }
    }
  }

  // ----- entries -----

  datatype IndexEntry = IndexEntry(tag: string, mode: string, objectId: string, stage: int, path: string)

  datatype TreeEntry = TreeEntry(mode: string, objectId: string, path: string)

  const GITLINK := "160000"

  const SYMLINK := "120000"

  const EXECUTABLE := "100755"

  const REGULAR := "100644"

  predicate AllowedMode(mode: string) {
    mode in {REGULAR, EXECUTABLE, SYMLINK, GITLINK}
  }

  predicate ValidObjectId(id: string) {
    |id| in {40, 64} && forall i | 0 <= i < |id| :: '0' <= id[i] <= '9' || 'a' <= id[i] <= 'f'
  }

  function IndexLengths(entries: seq<IndexEntry>): set<int> {
    set i | 0 <= i < |entries| :: |entries[i].objectId|
  }

  function TreeLengths(entries: seq<TreeEntry>): set<int> {
    set i | 0 <= i < |entries| :: |entries[i].objectId|
  }

  /** text.split(c, 1) with two parts, if it has them. */
  function Cut(text: string, c: char): Option<(string, string)> {
    if text == "" then None
    else if text[0] == c then Some(("", text[1..]))
    else match Cut(text[1..], c)
      case None => None
      case Some((before, after)) => Some(([text[0]] + before, after))
  }

  lemma {:induction false} CutFirst(before: string, after: string, c: char)
    requires c !in before
    ensures Cut(before + [c] + after, c) == Some((before, after))
    decreases |before|
  {
    var text := before + [c] + after;
    if before == "" {
      assert text[1..] == after;
    } else {
      assert before[0] in before && c !in before[1..];
      CutFirst(before[1..], after, c);
      assert text[1..] == before[1..] + [c] + after;
      assert [before[0]] + before[1..] == before;
    }
  }

  lemma {:induction false} CutParts(text: string, c: char)
    requires Cut(text, c).Some?
    ensures text == Cut(text, c).value.0 + [c] + Cut(text, c).value.1
    decreases |text|
  {
    if text[0] != c {
      CutParts(text[1..], c);
      assert text == [text[0]] + text[1..];
    }
  }

  predicate ValidStage(tag: string, stage: int) {
    0 <= stage <= 3 && (tag == "M" <==> stage != 0)
  }

  /** One record of git ls-files --stage -t; readInt is Python's int(). */
  function IndexRecord(readInt: string -> Option<int>, record: string): Result<IndexEntry, EvidenceError> {
    match Cut(record, '\t')
    case None => Err(Malformed)
    case Some((metadata, rawPath)) =>
      var fields := Split(metadata, ' ');
      if |fields| != 4 || readInt(fields[3]).None? then Err(Malformed) else
        var tag, mode, objectId, stage := fields[0], fields[1], fields[2], readInt(fields[3]).value;
        if tag !in {"H", "S", "M"} then Err(UnknownTag)
        else if !AllowedMode(mode) then Err(UnsupportedMode)
        else if !ValidStage(tag, stage) then Err(InvalidStage)
        else if !ValidObjectId(objectId) then Err(InvalidObject)
        else
          var path :- ParsePath(rawPath);
          Ok(IndexEntry(tag, mode, objectId, stage, path))
  }

  function ObjectType(mode: string): string {
    if mode == GITLINK then "commit" else "blob"
  }

  /** One record of git ls-tree. */
  function TreeRecord(record: string): Result<TreeEntry, EvidenceError> {
    match Cut(record, '\t')
    case None => Err(Malformed)
    case Some((metadata, rawPath)) =>
      var fields := Split(metadata, ' ');
      if |fields| != 3 then Err(Malformed) else
        var mode, objectType, objectId := fields[0], fields[1], fields[2];
        if !AllowedMode(mode) || objectType != ObjectType(mode) then Err(UnsupportedMode)
        else if !ValidObjectId(objectId) then Err(InvalidObject)
        else
          var path :- ParsePath(rawPath);
          Ok(TreeEntry(mode, objectId, path))
  }

  function IndexRecords(readInt: string -> Option<int>,
                        records: seq<string>): (r: Result<seq<IndexEntry>, EvidenceError>)
    ensures r.Ok? ==> |r.value| == |records|
  {
    if records == [] then Ok([]) else
      var before :- IndexRecords(readInt, records[..|records| - 1]);
      var entry :- IndexRecord(readInt, records[|records| - 1]);
      Ok(before + [entry])
  }

  function TreePaths(entries: seq<TreeEntry>): set<string> {
    set i | 0 <= i < |entries| :: entries[i].path
  }

  function TreeRecords(records: seq<string>): (r: Result<seq<TreeEntry>, EvidenceError>)
    ensures r.Ok? ==> |r.value| == |records|
  {
    if records == [] then Ok([]) else
      var before :- TreeRecords(records[..|records| - 1]);
      var entry :- TreeRecord(records[|records| - 1]);
      if entry.path in TreePaths(before) then Err(DuplicatePath) else Ok(before + [entry])
  }

  function ParseIndex(readInt: string -> Option<int>, stdout: string): Result<seq<IndexEntry>, EvidenceError> {
    var records :- SplitRecords(stdout);
    var entries :- IndexRecords(readInt, records);
    if |IndexLengths(entries)| > 1 then Err(MixedFormats) else Ok(entries)
  }

  function ParseTree(stdout: string): Result<seq<TreeEntry>, EvidenceError> {
    var records :- SplitRecords(stdout);
    var entries :- TreeRecords(records);
    if |TreeLengths(entries)| > 1 then Err(MixedFormats) else Ok(entries)
  }

  lemma {:induction false} IndexPrefix(readInt: string -> Option<int>, records: seq<string>, i: nat)
    requires i <= |records|
    ensures IndexRecords(readInt, records[..i]).Err? ==>
              IndexRecords(readInt, records) == IndexRecords(readInt, records[..i])
    decreases |records|
  {
    if i < |records| {
      IndexPrefix(readInt, records[..|records| - 1], i);
      assert records[..|records| - 1][..i] == records[..i];
    } else {
      assert records[..i] == records;
    }
  }

  lemma {:induction false} TreePrefix(records: seq<string>, i: nat)
    requires i <= |records|
    ensures TreeRecords(records[..i]).Err? ==> TreeRecords(records) == TreeRecords(records[..i])
    decreases |records|
  {
    if i < |records| {
      TreePrefix(records[..|records| - 1], i);
      assert records[..|records| - 1][..i] == records[..i];
    } else {
      assert records[..i] == records;
    }
  }

  lemma {:induction false} NextIndexRecord(readInt: string -> Option<int>, records: seq<string>, i: nat,
                                           before: seq<IndexEntry>)
    requires i < |records| && IndexRecords(readInt, records[..i]) == Ok(before)
    ensures var next := IndexRecord(readInt, records[i]);
            if next.Err? then IndexRecords(readInt, records) == Err(next.error)
            else IndexRecords(readInt, records[..i + 1]) == Ok(before + [next.value])
  {
    hide IndexRecord;
    assert records[..i + 1][..i] == records[..i];
    IndexPrefix(readInt, records, i + 1);
  }

  lemma {:induction false} NoIndexYet(readInt: string -> Option<int>)
    ensures IndexRecords(readInt, []) == Ok([]) && IndexLengths([]) == {}
  {
  }

  /** repository.py:726-754. */
  method ParseIndexEntries(readInt: string -> Option<int>, stdout: string)
    returns (r: Result<seq<IndexEntry>, EvidenceError>)
    ensures r == ParseIndex(readInt, stdout)
  {
    hide ParsePath, ValidObjectId, AllowedMode, Split, Cut, IndexRecords, IndexLengths, SplitRecords;
    NoIndexYet(readInt);
    var records :- SplitRecords(stdout);
    var entries: seq<IndexEntry> := [];
    var lengths: set<int> := {};
    assert records[..0] == [];
    for i := 0 to |records|
      invariant IndexRecords(readInt, records[..i]) == Ok(entries)
      invariant lengths == IndexLengths(entries)
    {
      NextIndexRecord(readInt, records, i, entries);
      match Cut(records[i], '\t')
      case None => return Err(Malformed);
      case Some((metadata, rawPath)) =>
        var fields := Split(metadata, ' ');
        if |fields| != 4 {
          return Err(Malformed);
        }
        var tag, mode, objectId, stage := fields[0], fields[1], fields[2], readInt(fields[3]);
        if stage.None? {
          return Err(Malformed);
        }
        if tag !in {"H", "S", "M"} {
          return Err(UnknownTag);
        }
        if !AllowedMode(mode) {
          return Err(UnsupportedMode);
        }
        if !ValidStage(tag, stage.value) {
          return Err(InvalidStage);
        }
        if !ValidObjectId(objectId) {
          return Err(InvalidObject);
        }
        lengths := lengths + {|objectId|};
        var path :- ParsePath(rawPath);
        IndexLengthsGrow(entries, IndexEntry(tag, mode, objectId, stage.value, path));
        entries := entries + [IndexEntry(tag, mode, objectId, stage.value, path)];
    }
    assert records[..|records|] == records;
    if |lengths| > 1 {
      return Err(MixedFormats);
    }
    return Ok(entries);
  }

  lemma {:induction false} IndexLengthsGrow(entries: seq<IndexEntry>, entry: IndexEntry)
    ensures IndexLengths(entries + [entry]) == IndexLengths(entries) + {|entry.objectId|}
  {
    var more := entries + [entry];
    assert more[|entries|] == entry;
    forall n | n in IndexLengths(entries) ensures n in IndexLengths(more) {
      var i :| 0 <= i < |entries| && |entries[i].objectId| == n;
      assert more[i] == entries[i];
    }
  }

  lemma {:induction false} TreeGrows(entries: seq<TreeEntry>, entry: TreeEntry)
    ensures TreeLengths(entries + [entry]) == TreeLengths(entries) + {|entry.objectId|}
    ensures TreePaths(entries + [entry]) == TreePaths(entries) + {entry.path}
  {
    var more := entries + [entry];
    assert more[|entries|] == entry;
    forall n | n in TreeLengths(entries) ensures n in TreeLengths(more) {
      var i :| 0 <= i < |entries| && |entries[i].objectId| == n;
      assert more[i] == entries[i];
    }
    forall p | p in TreePaths(entries) ensures p in TreePaths(more) {
      var i :| 0 <= i < |entries| && entries[i].path == p;
      assert more[i] == entries[i];
    }
  }

  lemma {:induction false} NextTreeRecord(records: seq<string>, i: nat, before: seq<TreeEntry>)
    requires i < |records| && TreeRecords(records[..i]) == Ok(before)
    ensures var next := TreeRecord(records[i]);
            if next.Err? then TreeRecords(records) == Err(next.error)
            else if next.value.path in TreePaths(before) then TreeRecords(records) == Err(DuplicatePath)
            else TreeRecords(records[..i + 1]) == Ok(before + [next.value])
  {
    hide TreeRecord, TreePaths;
    assert records[..i + 1][..i] == records[..i];
    TreePrefix(records, i + 1);
  }

  lemma {:induction false} NoTreeYet()
    ensures TreeRecords([]) == Ok([]) && TreeLengths([]) == {} && TreePaths([]) == {}
  {
  }

  /** repository.py:757-778. */
  method ParseTreeEntries(stdout: string) returns (r: Result<seq<TreeEntry>, EvidenceError>)
    ensures r == ParseTree(stdout)
  {
    hide ParsePath, ValidObjectId, AllowedMode, Split, Cut, TreeRecords, TreePaths, TreeLengths, SplitRecords;
    NoTreeYet();
    var records :- SplitRecords(stdout);
    var entries: seq<TreeEntry> := [];
    var seen: set<string> := {};
    var lengths: set<int> := {};
    assert records[..0] == [];
    for i := 0 to |records|
      invariant TreeRecords(records[..i]) == Ok(entries)
      invariant lengths == TreeLengths(entries) && seen == TreePaths(entries)
    {
      NextTreeRecord(records, i, entries);
      match Cut(records[i], '\t')
      case None => return Err(Malformed);
      case Some((metadata, rawPath)) =>
        var fields := Split(metadata, ' ');
        if |fields| != 3 {
          return Err(Malformed);
        }
        var mode, objectType, objectId := fields[0], fields[1], fields[2];
        var expectedType := if mode == GITLINK then "commit" else "blob";
        if !AllowedMode(mode) || objectType != expectedType {
          return Err(UnsupportedMode);
        }
        if !ValidObjectId(objectId) {
          return Err(InvalidObject);
        }
        lengths := lengths + {|objectId|};
        var path :- ParsePath(rawPath);
        if path in seen {
          return Err(DuplicatePath);
        }
        TreeGrows(entries, TreeEntry(mode, objectId, path));
        seen := seen + {path};
        entries := entries + [TreeEntry(mode, objectId, path)];
    }
    assert records[..|records|] == records;
    if |lengths| > 1 {
      return Err(MixedFormats);
    }
    return Ok(entries);
  }

  // ----- canonical printing -----

  predicate ValidIndexEntry(e: IndexEntry) {
    && e.tag in {"H", "S", "M"} && AllowedMode(e.mode) && ValidStage(e.tag, e.stage)
    && ValidObjectId(e.objectId) && SafePath(e.path) && NUL !in e.path
  }

  /** A list that the index may hold: every entry valid, one object format. */
  predicate ValidIndex(entries: seq<IndexEntry>) {
    && (forall i | 0 <= i < |entries| :: ValidIndexEntry(entries[i]))
    && |IndexLengths(entries)| <= 1
  }

  predicate ValidTreeEntry(e: TreeEntry) {
    AllowedMode(e.mode) && ValidObjectId(e.objectId) && SafePath(e.path) && NUL !in e.path
  }

  predicate DistinctPaths(entries: seq<TreeEntry>) {
    forall i, j | 0 <= i < j < |entries| :: entries[i].path != entries[j].path
  }

  predicate ValidTree(entries: seq<TreeEntry>) {
    && (forall i | 0 <= i < |entries| :: ValidTreeEntry(entries[i]))
    && DistinctPaths(entries) && |TreeLengths(entries)| <= 1
  }

  function StageText(stage: int): string {
    if stage == 0 then "0" else if stage == 1 then "1" else if stage == 2 then "2" else "3"
  }

  function IndexLine(e: IndexEntry): string {
    Join([e.tag, e.mode, e.objectId, StageText(e.stage)], ' ') + "\t" + e.path
  }

  function TreeLine(e: TreeEntry): string {
    Join([e.mode, ObjectType(e.mode), e.objectId], ' ') + "\t" + e.path
  }

  function IndexLines(entries: seq<IndexEntry>): seq<string> {
    seq(|entries|, i requires 0 <= i < |entries| => IndexLine(entries[i]))
  }

  function TreeLines(entries: seq<TreeEntry>): seq<string> {
    seq(|entries|, i requires 0 <= i < |entries| => TreeLine(entries[i]))
  }

  /** int() reads the four stage digits. */
  ghost predicate ReadsDigits(readInt: string -> Option<int>) {
    readInt("0") == Some(0) && readInt("1") == Some(1) && readInt("2") == Some(2) && readInt("3") == Some(3)
  }

  predicate Word(text: string) {
    ' ' !in text && '\t' !in text && NUL !in text
  }

  lemma {:induction false} WordsJoin(words: seq<string>, c: char)
    requires forall w | w in words :: Word(w)
    requires c == '\t' || c == NUL
    ensures c !in Join(words, ' ')
    decreases |words|
  {
    if c in Join(words, ' ') {
      JoinedChars(words, ' ', c);
    }
  }

  lemma {:induction false} ObjectIdWord(id: string)
    requires ValidObjectId(id)
    ensures Word(id)
  {
  }

  lemma {:induction false} ModeWords(mode: string)
    requires AllowedMode(mode)
    ensures Word(mode) && Word(ObjectType(mode))
  {
  }

  lemma {:induction false} SafePathParses(path: string)
    requires SafePath(path)
    ensures ParsePath(path) == Ok(path)
  {
  }

  lemma {:induction false} IndexLineParses(readInt: string -> Option<int>, e: IndexEntry)
    requires ReadsDigits(readInt) && ValidIndexEntry(e)
    ensures IndexRecord(readInt, IndexLine(e)) == Ok(e)
    ensures IndexLine(e) != "" && NUL !in IndexLine(e)
  {
    var words := [e.tag, e.mode, e.objectId, StageText(e.stage)];
    ObjectIdWord(e.objectId);
    ModeWords(e.mode);
    SafePathParses(e.path);
    hide SafePath, ParsePath, ValidObjectId, AllowedMode, Cut, Split, Join;
    WordsJoin(words, '\t');
    WordsJoin(words, NUL);
    assert forall w | w in words :: ' ' !in w;
    SplitJoined(words, ' ');
    CutFirst(Join(words, ' '), e.path, '\t');
  }

  lemma {:induction false} TreeLineParses(e: TreeEntry)
    requires ValidTreeEntry(e)
    ensures TreeRecord(TreeLine(e)) == Ok(e)
    ensures TreeLine(e) != "" && NUL !in TreeLine(e)
  {
    var words := [e.mode, ObjectType(e.mode), e.objectId];
    ObjectIdWord(e.objectId);
    ModeWords(e.mode);
    SafePathParses(e.path);
    hide SafePath, ParsePath, ValidObjectId, AllowedMode, Cut, Split, Join;
    WordsJoin(words, '\t');
    WordsJoin(words, NUL);
    assert forall w | w in words :: ' ' !in w;
    SplitJoined(words, ' ');
    CutFirst(Join(words, ' '), e.path, '\t');
  }

  lemma {:induction false} IndexLinesParse(readInt: string -> Option<int>, entries: seq<IndexEntry>)
    requires ReadsDigits(readInt) && forall i | 0 <= i < |entries| :: ValidIndexEntry(entries[i])
    ensures IndexRecords(readInt, IndexLines(entries)) == Ok(entries) && Plain(IndexLines(entries))
    decreases |entries|
  {
    hide IndexRecord, ValidIndexEntry, IndexLine;
    if entries != [] {
      var before, last := entries[..|entries| - 1], entries[|entries| - 1];
      IndexLinesParse(readInt, before);
      IndexLineParses(readInt, last);
      var lines := IndexLines(entries);
      assert lines[..|lines| - 1] == IndexLines(before) && lines[|lines| - 1] == IndexLine(last);
      assert lines == IndexLines(before) + [IndexLine(last)] && entries == before + [last];
    }
  }

  lemma {:induction false} TreeLinesParse(entries: seq<TreeEntry>)
    requires (forall i | 0 <= i < |entries| :: ValidTreeEntry(entries[i])) && DistinctPaths(entries)
    ensures TreeRecords(TreeLines(entries)) == Ok(entries) && Plain(TreeLines(entries))
    decreases |entries|
  {
    hide TreeRecord, ValidTreeEntry, TreeLine;
    if entries != [] {
      var before, last := entries[..|entries| - 1], entries[|entries| - 1];
      TreeLinesParse(before);
      TreeLineParses(last);
      var lines := TreeLines(entries);
      assert lines[..|lines| - 1] == TreeLines(before) && lines[|lines| - 1] == TreeLine(last);
      assert lines == TreeLines(before) + [TreeLine(last)] && entries == before + [last];
    }
  }

  /** Parsing the printing of any index gives the index back. */
  lemma {:induction false} IndexRoundTrip(readInt: string -> Option<int>, entries: seq<IndexEntry>)
    requires ReadsDigits(readInt) && ValidIndex(entries)
    ensures ParseIndex(readInt, Terminated(IndexLines(entries))) == Ok(entries)
  {
    IndexLinesParse(readInt, entries);
    RecordsInvert(Terminated(IndexLines(entries)), IndexLines(entries));
  }

  /** Parsing the printing of any tree gives the tree back. */
  lemma {:induction false} TreeRoundTrip(entries: seq<TreeEntry>)
    requires ValidTree(entries)
    ensures ParseTree(Terminated(TreeLines(entries))) == Ok(entries)
  {
    TreeLinesParse(entries);
    RecordsInvert(Terminated(TreeLines(entries)), TreeLines(entries));
  }

  lemma {:induction false} IndexRecordValid(readInt: string -> Option<int>, record: string)
    requires IndexRecord(readInt, record).Ok? && NUL !in record
    ensures ValidIndexEntry(IndexRecord(readInt, record).value)
  {
    CutParts(record, '\t');
    ParsedPath(Cut(record, '\t').value.1);
    hide SafePath, ParsePath, ValidObjectId, AllowedMode, Cut, Split, Join;
    assert NUL !in Cut(record, '\t').value.1;
  }

  lemma {:induction false} TreeRecordValid(record: string)
    requires TreeRecord(record).Ok? && NUL !in record
    ensures ValidTreeEntry(TreeRecord(record).value)
  {
    CutParts(record, '\t');
    ParsedPath(Cut(record, '\t').value.1);
    hide SafePath, ParsePath, ValidObjectId, AllowedMode, Cut, Split, Join;
    assert NUL !in Cut(record, '\t').value.1;
  }

  lemma {:induction false} PlainInit(records: seq<string>)
    requires Plain(records) && records != []
    ensures Plain(records[..|records| - 1]) && NUL !in records[|records| - 1]
  {
    var before, last := records[..|records| - 1], records[|records| - 1];
    assert last in records;
    forall r | r in before ensures r != "" && NUL !in r {
      var i :| 0 <= i < |before| && before[i] == r;
      assert records[i] in records;
    }
  }

  lemma {:induction false} IndexRecordsValid(readInt: string -> Option<int>, records: seq<string>)
    requires Plain(records) && IndexRecords(readInt, records).Ok?
    ensures forall e | e in IndexRecords(readInt, records).value :: ValidIndexEntry(e)
    decreases |records|
  {
    hide IndexRecord, ValidIndexEntry;
    if records != [] {
      PlainInit(records);
      IndexRecordsValid(readInt, records[..|records| - 1]);
      IndexRecordValid(readInt, records[|records| - 1]);
    }
  }

  lemma {:induction false} TreeRecordsValid(records: seq<string>)
    requires Plain(records) && TreeRecords(records).Ok?
    ensures forall e | e in TreeRecords(records).value :: ValidTreeEntry(e)
    ensures DistinctPaths(TreeRecords(records).value)
    decreases |records|
  {
    hide TreeRecord, ValidTreeEntry;
    if records != [] {
      PlainInit(records);
      TreeRecordsValid(records[..|records| - 1]);
      TreeRecordValid(records[|records| - 1]);
    }
  }

  /** Whatever is accepted is a valid index, so printing and parsing it again
      changes nothing. */
  lemma {:induction false} AcceptedIndex(readInt: string -> Option<int>, stdout: string)
    requires ReadsDigits(readInt) && ParseIndex(readInt, stdout).Ok?
    ensures ValidIndex(ParseIndex(readInt, stdout).value)
    ensures ParseIndex(readInt, Terminated(IndexLines(ParseIndex(readInt, stdout).value))) == ParseIndex(readInt, stdout)
  {
    var records := SplitRecords(stdout).value;
    RecordsInvert(stdout, records);
    IndexRecordsValid(readInt, records);
    IndexRoundTrip(readInt, ParseIndex(readInt, stdout).value);
  }

  lemma {:induction false} AcceptedTree(stdout: string)
    requires ParseTree(stdout).Ok?
    ensures ValidTree(ParseTree(stdout).value)
    ensures ParseTree(Terminated(TreeLines(ParseTree(stdout).value))) == ParseTree(stdout)
  {
    var records := SplitRecords(stdout).value;
    RecordsInvert(stdout, records);
    TreeRecordsValid(records);
    TreeRoundTrip(ParseTree(stdout).value);
  }

  // ----- untracked paths -----

  function ParsePaths(records: seq<string>): (r: Result<seq<string>, EvidenceError>)
    ensures r.Ok? ==> |r.value| == |records|
  {
    if records == [] then Ok([]) else
      var before :- ParsePaths(records[..|records| - 1]);
      var path :- ParsePath(records[|records| - 1]);
      Ok(before + [path])
  }

  /** repository.py:781-788. */
  function ParseNulPaths(stdout: string): Result<seq<string>, EvidenceError> {
    var records :- SplitRecords(stdout);
    var paths :- ParsePaths(records);
    if |set p | p in paths| != |paths| then Err(DuplicatePath) else Ok(paths)
  }

  predicate ValidPaths(paths: seq<string>) {
    && (forall p | p in paths :: SafePath(p) && NUL !in p)
    && forall i, j | 0 <= i < j < |paths| :: paths[i] != paths[j]
  }

  /** Counting the distinct paths finds every duplicate. */
  lemma {:induction false} CountsDuplicates(paths: seq<string>)
    ensures |set p | p in paths| <= |paths|
    ensures |set p | p in paths| == |paths| <==> forall i, j | 0 <= i < j < |paths| :: paths[i] != paths[j]
    decreases |paths|
  {
    if paths != [] {
      var before, last := paths[..|paths| - 1], paths[|paths| - 1];
      CountsDuplicates(before);
      var small, all := set p | p in before, set p | p in paths;
      assert paths == before + [last];
      assert all == small + {last};
      if last in before {
        assert all == small;
        var i :| 0 <= i < |before| && before[i] == last;
        assert paths[i] == paths[|paths| - 1];
      } else {
        assert last !in small;
        assert |all| == |small| + 1;
        forall i | 0 <= i < |before| ensures paths[i] != last {
          assert before[i] in before;
        }
      }
    }
  }

  lemma {:induction false} SafePathsParse(paths: seq<string>)
    requires forall p | p in paths :: SafePath(p) && NUL !in p
    ensures ParsePaths(paths) == Ok(paths) && Plain(paths)
    decreases |paths|
  {
    if paths != [] {
      var before, last := paths[..|paths| - 1], paths[|paths| - 1];
      assert forall p | p in before :: p in paths;
      assert last in paths;
      SafePathsParse(before);
      SafePathParses(last);
      assert paths == before + [last];
    }
  }

  /** Distinct safe paths are read back from their printing. */
  lemma {:induction false} PathsRoundTrip(paths: seq<string>)
    requires ValidPaths(paths)
    ensures ParseNulPaths(Terminated(paths)) == Ok(paths)
  {
    hide SafePath, ParsePath;
    SafePathsParse(paths);
    RecordsInvert(Terminated(paths), paths);
    CountsDuplicates(paths);
  }

  lemma {:induction false} ParsedPathsSafe(records: seq<string>)
    requires Plain(records) && ParsePaths(records).Ok?
    ensures forall p | p in ParsePaths(records).value :: SafePath(p) && NUL !in p
    decreases |records|
  {
    hide SafePath, ParsePath;
    if records != [] {
      PlainInit(records);
      ParsedPathsSafe(records[..|records| - 1]);
      ParsedPath(records[|records| - 1]);
    }
  }

  lemma {:induction false} AcceptedPaths(stdout: string)
    requires ParseNulPaths(stdout).Ok?
    ensures ValidPaths(ParseNulPaths(stdout).value)
    ensures ParseNulPaths(Terminated(ParseNulPaths(stdout).value)) == ParseNulPaths(stdout)
  {
    hide SafePath, ParsePath;
    var records := SplitRecords(stdout).value;
    RecordsInvert(stdout, records);
    ParsedPathsSafe(records);
    CountsDuplicates(ParseNulPaths(stdout).value);
    PathsRoundTrip(ParseNulPaths(stdout).value);
  }
}
