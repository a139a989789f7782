/** The manifest accessors of class `Torrent`: typed reads of the info
    dictionary of a decoded torrent file, its digest, and its file list. */
module Metainfo {
  import opened Outcomes
  import opened Foreign
  import opened Bencode
  import opened PieceDigests

  const InfoKey: Bytes := Ascii("info")
  const NameKey: Bytes := Ascii("name")
  const LengthKey: Bytes := Ascii("length")
  const PieceLengthKey: Bytes := Ascii("piece length")
  const PiecesKey: Bytes := Ascii("pieces")
  const FilesKey: Bytes := Ascii("files")
  const PathKey: Bytes := Ascii("path")

  /** `bencodepy.encode`: the canonical bencoding of a value. */
  type Encoder = Value -> Bytes

  /** `File(path, size)`, one file the torrent describes. */
  datatype File = File(path: string, size: int)

  /** The two fields of a `Torrent`: the whole decoded document `_data`
      and its `info` dictionary `_info`, both set once on construction. */
  datatype TorrentFields = TorrentFields(data: Value, info: Value)

  predicate InfoOfData(t: TorrentFields) {
    Lookup(t.data, InfoKey) == Ok(t.info)
  }

  /** A constructed `Torrent`: `_info` is what the document stores under `info`. */
  type Torrent = t: TorrentFields | InfoOfData(t)
    witness TorrentFields(Dict([Entry(InfoKey, Dict([]))]), Dict([]))

  /** `Torrent(file)` given the decoded document: `_data[b"info"]`. */
  function Load(data: Value): (r: Result<Torrent>)
    ensures r.Ok? <==> HasKey(data, InfoKey)
    ensures r.Ok? ==> r.value.data == data && Has(data, InfoKey, r.value.info)
    ensures !data.Dict? ==> r == Err(TypeError)
    ensures data.Dict? && !HasKey(data, InfoKey) ==> r == Err(KeyError(InfoKey))
  {
    var info :- Lookup(data, InfoKey);
    Ok(TorrentFields(data, info))
  }

  /** `info()`: `self._info.copy()`. Dictionaries and lists have `copy`,
      which returns an equal value; integers and byte strings have none. */
  function Info(t: Torrent): (r: Result<Value>)
    ensures r.Ok? <==> t.info.Dict? || t.info.List?
    ensures r.Ok? ==> Lookup(t.data, InfoKey) == Ok(r.value) && Has(t.data, InfoKey, r.value)
    ensures r.Err? ==> r.error == AttributeError
  {
    if t.info.Dict? || t.info.List? then Ok(t.info) else Err(AttributeError)
  }

  /** `hash()`: the SHA-1 digest of the bencoding of `_info`, which is the
      value the document stores under `info`. */
  function Hash(t: Torrent, encode: Encoder, sha1: Sha1): (r: Digest)
    ensures Has(t.data, InfoKey, t.info) && r == sha1(encode(Lookup(t.data, InfoKey).value))
    ensures Info(t).Ok? ==> r == sha1(encode(Info(t).value))
  {
    sha1(encode(t.info))
  }

  /** An integer-valued field. */
  function AsInt(v: Value): (r: Result<int>)
    ensures r.Ok? <==> v.Int?
    ensures r.Ok? ==> v == Int(r.value)
    ensures r.Err? ==> r.error == TypeError
  {
    match v
    case Int(n) => Ok(n)
    case _ => Err(TypeError)
  }

  /** `name()`: the UTF-8 text stored under `name`. */
  function Name(t: Torrent, utf8: Utf8): (r: Result<string>)
    ensures r.Ok? ==> exists b :: Has(t.info, NameKey, Str(b)) && utf8(b) == Some(r.value)
    ensures !t.info.Dict? ==> r == Err(TypeError)
    ensures t.info.Dict? && !HasKey(t.info, NameKey) ==> r == Err(KeyError(NameKey))
  {
    var v :- Lookup(t.info, NameKey);
    var s :- DecodeText(v, utf8);
    assert Has(t.info, NameKey, Str(v.bytes));
    Ok(s)
  }

  /** `size()`: the integer stored under `length`. */
  function Size(t: Torrent): (r: Result<int>)
    ensures r.Ok? ==> Has(t.info, LengthKey, Int(r.value))
    ensures !t.info.Dict? ==> r == Err(TypeError)
    ensures t.info.Dict? && !HasKey(t.info, LengthKey) ==> r == Err(KeyError(LengthKey))
  {
    var v :- Lookup(t.info, LengthKey);
    AsInt(v)
  }

  /** `piece_length()`: the integer stored under `piece length`. */
  function PieceLength(t: Torrent): (r: Result<int>)
    ensures r.Ok? ==> Has(t.info, PieceLengthKey, Int(r.value))
    ensures !t.info.Dict? ==> r == Err(TypeError)
    ensures t.info.Dict? && !HasKey(t.info, PieceLengthKey) ==> r == Err(KeyError(PieceLengthKey))
  {
    var v :- Lookup(t.info, PieceLengthKey);
    AsInt(v)
  }

  /** `pieces()`: the digest table over the byte string stored under `pieces`. */
  function PiecesOf(t: Torrent): (r: Result<Pieces>)
    ensures r.Ok? ==> Has(t.info, PiecesKey, Str(r.value.buffer))
    ensures !t.info.Dict? ==> r == Err(TypeError)
    ensures t.info.Dict? && !HasKey(t.info, PiecesKey) ==> r == Err(KeyError(PiecesKey))
  {
    var v :- Lookup(t.info, PiecesKey);
    if v.Str? then Ok(Pieces(v.bytes)) else Err(TypeError)
  }

  /** `sep.join(names)` with `sep` the single character `/`. */
  function JoinPath(names: seq<string>): string {
    if |names| == 0 then ""
    else if |names| == 1 then names[0]
    else names[0] + "/" + JoinPath(names[1..])
  }

  /** The path of a multi-file entry in BEP 3 form: a list of UTF-8 path
      components, joined into one relative path. */
  function ComponentPath(v: Value, utf8: Utf8): (r: Result<string>)
    ensures !v.List? ==> r == Err(TypeError)
    ensures r.Ok? ==> exists names :: MapAll(v.items, c => DecodeText(c, utf8)) == Ok(names)
                                      && r.value == JoinPath(names)
  {
    match v
    case List(parts) =>
      var names :- MapAll(parts, c => DecodeText(c, utf8));
      Ok(JoinPath(names))
    case _ => Err(TypeError)
  }

  /** How `files()` as written reads a path: `path.decode()`. */
  function DecodedPath(utf8: Utf8): Value -> Result<string> {
    p => DecodeText(p, utf8)
  }

  /** How a BEP 3 path is read: a list of components. */
  function ComponentsPath(utf8: Utf8): Value -> Result<string> {
    p => ComponentPath(p, utf8)
  }

  /** `File(<path of f[b"path"]>, f[b"length"])` for one element `f` of the
      `files` list; the path is read and decoded before the length is read. */
  function EntryFile(f: Value, pathOf: Value -> Result<string>): (r: Result<File>)
    ensures r.Ok? ==> exists p :: Has(f, PathKey, p) && pathOf(p) == Ok(r.value.path)
    ensures r.Ok? ==> Has(f, LengthKey, Int(r.value.size))
    ensures !f.Dict? ==> r == Err(TypeError)
  {
    var p :- Lookup(f, PathKey);
    var path :- pathOf(p);
    var n :- Lookup(f, LengthKey);
    var size :- AsInt(n);
    Ok(File(path, size))
  }

  /** The `files` list, one `EntryFile` per element of `info[b"files"]`. */
  function ListedFiles(t: Torrent, pathOf: Value -> Result<string>): Result<seq<File>> {
    var listed :- Lookup(t.info, FilesKey);
    var items :- Iterate(listed);
    MapAll(items, f => EntryFile(f, pathOf))
  }

  /** The single-file form `[File(self.name(), self.size())]`. */
  function SingleFile(t: Torrent, utf8: Utf8): Result<seq<File>> {
    var name :- Name(t, utf8);
    var size :- Size(t);
    Ok([File(name, size)])
  }

  /** `files()` as written: the path of a listed file is `f[b"path"].decode()`.
      When `_info` is not a dictionary every branch of the Python code ends in
      a TypeError (from `in` on an integer, or from subscripting). */
  function FilesAsWritten(t: Torrent, utf8: Utf8): (r: Result<seq<File>>)
    ensures !t.info.Dict? ==> r == Err(TypeError)
    ensures t.info.Dict? && !HasKey(t.info, FilesKey) ==> r == Files(t, utf8)
  {
    if !t.info.Dict? then Err(TypeError)
    else if HasKey(t.info, FilesKey) then ListedFiles(t, DecodedPath(utf8))
    else SingleFile(t, utf8)
  }

  /** `files()` with the path of a listed file read as BEP 3 defines it, a
      list of components. Without a `files` key the one file is the torrent
      itself, named `name()` and of size `size()`. */
  function Files(t: Torrent, utf8: Utf8): (r: Result<seq<File>>)
    ensures !t.info.Dict? ==> r == Err(TypeError)
    ensures t.info.Dict? && !HasKey(t.info, FilesKey) ==>
              && (r.Ok? <==> Name(t, utf8).Ok? && Size(t).Ok?)
              && (r.Ok? ==> r.value == [File(Name(t, utf8).value, Size(t).value)])
              && (Name(t, utf8).Err? ==> r == Err(Name(t, utf8).error))
              && (Name(t, utf8).Ok? && Size(t).Err? ==> r == Err(Size(t).error))
  {
    if !t.info.Dict? then Err(TypeError)
    else if HasKey(t.info, FilesKey) then ListedFiles(t, ComponentsPath(utf8))
    else SingleFile(t, utf8)
  }

  // Properties of the accessors.

  /** `name()` returns the decoded text stored under `name`. */
  lemma NameReadsStored(t: Torrent, utf8: Utf8, b: Bytes)
    requires DistinctKeys(t.info) && Has(t.info, NameKey, Str(b))
    ensures utf8(b).Some? ==> Name(t, utf8) == Ok(utf8(b).value)
    ensures utf8(b).None? ==> Name(t, utf8) == Err(UnicodeDecodeError)
  {
    LookupStored(t.info, NameKey, Str(b));
  }

  /** `size()` returns the integer stored under `length`. */
  lemma SizeReadsStored(t: Torrent, n: int)
    requires DistinctKeys(t.info) && Has(t.info, LengthKey, Int(n))
    ensures Size(t) == Ok(n)
  {
    LookupStored(t.info, LengthKey, Int(n));
  }

  /** `piece_length()` returns the integer stored under `piece length`. */
  lemma PieceLengthReadsStored(t: Torrent, n: int)
    requires DistinctKeys(t.info) && Has(t.info, PieceLengthKey, Int(n))
    ensures PieceLength(t) == Ok(n)
  {
    LookupStored(t.info, PieceLengthKey, Int(n));
  }

  /** `pieces()` wraps the byte string stored under `pieces` unchanged. */
  lemma PiecesReadsStored(t: Torrent, b: Bytes)
    requires DistinctKeys(t.info) && Has(t.info, PiecesKey, Str(b))
    ensures PiecesOf(t) == Ok(Pieces(b))
  {
    LookupStored(t.info, PiecesKey, Str(b));
  }

  /** Two documents that store the same info dictionary give torrents with
      the same digest, whatever else their top levels hold. */
  lemma HashDependsOnInfoOnly(d1: Value, d2: Value, info: Value, encode: Encoder, sha1: Sha1)
    requires DistinctKeys(d1) && Has(d1, InfoKey, info)
    requires DistinctKeys(d2) && Has(d2, InfoKey, info)
    ensures Load(d1).Ok? && Load(d2).Ok?
    ensures Hash(Load(d1).value, encode, sha1) == Hash(Load(d2).value, encode, sha1) == sha1(encode(info))
  {
    LookupStored(d1, InfoKey, info);
    LookupStored(d2, InfoKey, info);
  }

  /** Setting any top-level key other than `info` (adding it or replacing its
      value) neither breaks loading nor changes the digest. */
  lemma HashIgnoresOtherKeys(d: Value, k: Bytes, v: Value, encode: Encoder, sha1: Sha1)
    requires d.Dict? && k != InfoKey && Load(d).Ok?
    ensures Load(Dict(Assign(d.entries, k, v))).Ok?
    ensures Hash(Load(Dict(Assign(d.entries, k, v))).value, encode, sha1) == Hash(Load(d).value, encode, sha1)
  {
    AssignOtherKey(d.entries, k, v, InfoKey);
  }

  /** In a multi-file torrent, `files()` gives one file per element of
      the `files` list, in the order of the list, each read by `EntryFile`;
      it fails with the exception of the first element that cannot be read. */
  lemma {:induction false} ListedFilesInOrder(t: Torrent, utf8: Utf8, items: seq<Value>)
    requires DistinctKeys(t.info) && Has(t.info, FilesKey, List(items))
    ensures Files(t, utf8).Ok? <==> forall i :: 0 <= i < |items| ==> EntryFile(items[i], ComponentsPath(utf8)).Ok?
    ensures Files(t, utf8).Ok? ==>
              && |Files(t, utf8).value| == |items|
              && forall i :: 0 <= i < |items| ==> EntryFile(items[i], ComponentsPath(utf8)) == Ok(Files(t, utf8).value[i])
    ensures Files(t, utf8).Err? ==>
              exists i :: 0 <= i < |items| && EntryFile(items[i], ComponentsPath(utf8)) == Err(Files(t, utf8).error)
                          && forall j :: 0 <= j < i ==> EntryFile(items[j], ComponentsPath(utf8)).Ok?
  {
    LookupStored(t.info, FilesKey, List(items));
  }

  /** The same for `files()` as written: one file per element of the
      `files` list, in list order, each read with `path.decode()`; it fails
      with the exception of the first element that cannot be read. */
  lemma {:induction false} ListedFilesAsWrittenInOrder(t: Torrent, utf8: Utf8, items: seq<Value>)
    requires DistinctKeys(t.info) && Has(t.info, FilesKey, List(items))
    ensures FilesAsWritten(t, utf8).Ok? <==> forall i :: 0 <= i < |items| ==> EntryFile(items[i], DecodedPath(utf8)).Ok?
    ensures FilesAsWritten(t, utf8).Ok? ==>
              && |FilesAsWritten(t, utf8).value| == |items|
              && forall i :: 0 <= i < |items| ==> EntryFile(items[i], DecodedPath(utf8)) == Ok(FilesAsWritten(t, utf8).value[i])
    ensures FilesAsWritten(t, utf8).Err? ==>
              exists i :: 0 <= i < |items| && EntryFile(items[i], DecodedPath(utf8)) == Err(FilesAsWritten(t, utf8).error)
                          && forall j :: 0 <= j < i ==> EntryFile(items[j], DecodedPath(utf8)).Ok?
  {
    LookupStored(t.info, FilesKey, List(items));
  }

  /** An entry whose `path` is a UTF-8 byte string and whose `length` is an
      integer reads, as written, as the decoded path with that length. */
  lemma EntryFileAsWrittenReadsEntry(f: Value, b: Bytes, name: string, n: int, utf8: Utf8)
    requires DistinctKeys(f) && Has(f, PathKey, Str(b)) && Has(f, LengthKey, Int(n))
    requires utf8(b) == Some(name)
    ensures EntryFile(f, DecodedPath(utf8)) == Ok(File(name, n))
  {
    LookupStored(f, PathKey, Str(b));
    LookupStored(f, LengthKey, Int(n));
  }

  /** A BEP 3 file entry, whose `path` is a list of UTF-8 components and
      whose `length` is an integer, reads as that path joined with `/` and
      that length. */
  lemma EntryFileReadsEntry(f: Value, parts: seq<Value>, names: seq<string>, n: int, utf8: Utf8)
    requires DistinctKeys(f) && Has(f, PathKey, List(parts)) && Has(f, LengthKey, Int(n))
    requires |names| == |parts|
    requires forall i :: 0 <= i < |parts| ==> parts[i].Str? && utf8(parts[i].bytes) == Some(names[i])
    ensures EntryFile(f, ComponentsPath(utf8)) == Ok(File(JoinPath(names), n))
  {
    LookupStored(f, PathKey, List(parts));
    LookupStored(f, LengthKey, Int(n));
    var decoded := MapAll(parts, c => DecodeText(c, utf8));
    assert decoded.Ok?;
    assert decoded.value == names;
  }

  /** As written, `files()` fails with AttributeError on every multi-file
      torrent whose first entry has a BEP 3 path (a list): a list has no
      `decode`. */
  lemma AsWrittenRejectsComponentPaths(t: Torrent, utf8: Utf8, items: seq<Value>, parts: seq<Value>)
    requires DistinctKeys(t.info) && Has(t.info, FilesKey, List(items))
    requires |items| > 0 && DistinctKeys(items[0]) && Has(items[0], PathKey, List(parts))
    ensures FilesAsWritten(t, utf8) == Err(AttributeError)
  {
    LookupStored(t.info, FilesKey, List(items));
    LookupStored(items[0], PathKey, List(parts));
    assert EntryFile(items[0], DecodedPath(utf8)) == Err(AttributeError);
  }

  /** The document of a multi-file torrent in BEP 3 form listing one file,
      `a`, of 5 bytes (other info keys omitted). */
  const Bep3Entry: Value := Dict([Entry(PathKey, List([Str(Ascii("a"))])), Entry(LengthKey, Int(5))])
  const Bep3Info: Value := Dict([Entry(FilesKey, List([Bep3Entry]))])
  const Bep3Example: Value := Dict([Entry(InfoKey, Bep3Info)])

  lemma Bep3ExampleShape()
    ensures Load(Bep3Example).Ok? && Load(Bep3Example).value.info == Bep3Info
    ensures DistinctKeys(Bep3Info) && Has(Bep3Info, FilesKey, List([Bep3Entry]))
    ensures DistinctKeys(Bep3Entry) && Has(Bep3Entry, PathKey, List([Str(Ascii("a"))]))
    ensures Has(Bep3Entry, LengthKey, Int(5))
  {
    assert Bep3Example.entries[0] == Entry(InfoKey, Bep3Info);
    assert Bep3Info.entries[0] == Entry(FilesKey, List([Bep3Entry]));
    assert Bep3Entry.entries[0] == Entry(PathKey, List([Str(Ascii("a"))]));
    assert Bep3Entry.entries[1] == Entry(LengthKey, Int(5));
    assert PathKey[0] != LengthKey[0];
    LookupStored(Bep3Example, InfoKey, Bep3Info);
  }

  /** On that document `files()` as written raises AttributeError, while the
      BEP 3 reading yields the one file. */
  lemma Bep3ExampleFiles(utf8: Utf8)
    requires utf8(Ascii("a")) == Some("a")
    ensures Load(Bep3Example).Ok?
    ensures FilesAsWritten(Load(Bep3Example).value, utf8) == Err(AttributeError)
    ensures Files(Load(Bep3Example).value, utf8) == Ok([File("a", 5)])
  {
    Bep3ExampleShape();
    var t := Load(Bep3Example).value;
    AsWrittenRejectsComponentPaths(t, utf8, [Bep3Entry], [Str(Ascii("a"))]);
    EntryFileReadsEntry(Bep3Entry, [Str(Ascii("a"))], ["a"], 5, utf8);
    assert JoinPath(["a"]) == "a";
    ListedFilesInOrder(t, utf8, [Bep3Entry]);
    assert [Bep3Entry][0] == Bep3Entry;
    assert Files(t, utf8).Ok?;
    assert |Files(t, utf8).value| == 1 && Files(t, utf8).value[0] == File("a", 5);
    assert Files(t, utf8).value == [File("a", 5)];
  }
}
