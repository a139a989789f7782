/** The first-piece check of the command-line entry point: the digest of the
    first `piece_length()` bytes of the origin file against the first record
    of the torrent's digest table. */
module FirstPiece {
  import opened Outcomes
  import opened Foreign
  import opened Bencode
  import opened PieceDigests
  import opened Metainfo

  /** `sys.maxsize` on a 64-bit platform: the largest C `Py_ssize_t`. */
  const MaxSize: int := 0x7fff_ffff_ffff_ffff

  /** `origin.read(n)` right after `origin.seek(0)` on a file opened `"rb"`.
      The reader first converts `n` to a `Py_ssize_t` (OverflowError outside
      `-MaxSize - 1 .. MaxSize`); then `-1` reads the whole file, a smaller
      `n` is refused with ValueError, and `n >= 0` reads at most `n` bytes
      from the start of the file. A failure to reserve the `n`-byte buffer
      that CPython allocates before reading is not modelled. */
  function ReadFromStart(origin: Bytes, n: int): (r: Result<Bytes>)
    ensures r.Ok? <==> -1 <= n <= MaxSize
    ensures n == -1 ==> r == Ok(origin)
    ensures 0 <= n <= MaxSize ==> r.Ok? && |r.value| == Min(n, |origin|) && r.value == origin[..|r.value|]
    ensures -MaxSize - 1 <= n < -1 ==> r == Err(ValueError)
    ensures (n < -MaxSize - 1 || MaxSize < n) ==> r == Err(OverflowError)
  {
    if n < -MaxSize - 1 || MaxSize < n then Err(OverflowError)
    else if n < -1 then Err(ValueError)
    else if n == -1 then Ok(origin)
    else Ok(origin[..Min(n, |origin|)])
  }

  /** The verdict of the check: `Ok(true)` when the digests match (the tool
      prints "yes"), `Ok(false)` when they differ, AssertionError when the
      first record is not a full digest, OverflowError or ValueError from
      `read` for a piece length it refuses, and the accessors' exceptions otherwise,
      `piece_length()` being called before `pieces()`. */
  function CheckFirstPiece(t: Torrent, origin: Bytes, sha1: Sha1): (r: Result<bool>)
    ensures r.Ok? <==> && PieceLength(t).Ok? && -1 <= PieceLength(t).value <= MaxSize
                       && PiecesOf(t).Ok? && |PiecesOf(t).value.buffer| >= 20
    ensures r.Ok? ==>
              r.value == (sha1(ReadFromStart(origin, PieceLength(t).value).value) == PiecesOf(t).value.buffer[..20])
    ensures PieceLength(t).Err? ==> r == Err(PieceLength(t).error)
    ensures PieceLength(t).Ok? && PieceLength(t).value < -1 ==>
              r == Err(if PieceLength(t).value < -MaxSize - 1 then OverflowError else ValueError)
    ensures PieceLength(t).Ok? && MaxSize < PieceLength(t).value ==> r == Err(OverflowError)
    ensures PieceLength(t).Ok? && -1 <= PieceLength(t).value <= MaxSize && PiecesOf(t).Err? ==>
              r == Err(PiecesOf(t).error)
    ensures (PieceLength(t).Ok? && -1 <= PieceLength(t).value <= MaxSize && PiecesOf(t).Ok? &&
             |PiecesOf(t).value.buffer| < 20) ==> r == Err(AssertionError)
  {
    var n :- PieceLength(t);
    var data :- ReadFromStart(origin, n);
    var digest := sha1(data);
    var table :- PiecesOf(t);
    var expected := table.Get(0);
    if |digest| != |expected| then Err(AssertionError) else Ok(digest == expected)
  }

  /** For a torrent read from a well-formed document with a piece length
      in `0 .. MaxSize` and at least one full digest, the check never raises
      (allocation failure in `read` aside), and
      it succeeds exactly when the digest of the first `piece length` bytes
      of the origin (all of them when the file is shorter) is the first
      20 bytes of `pieces`. */
  lemma FirstPieceVerdict(d: Value, info: Value, n: int, buffer: Bytes, origin: Bytes, sha1: Sha1)
    requires DistinctKeys(d) && Has(d, InfoKey, info)
    requires DistinctKeys(info) && Has(info, PieceLengthKey, Int(n)) && Has(info, PiecesKey, Str(buffer))
    requires 0 <= n <= MaxSize && 20 <= |buffer|
    ensures Load(d).Ok?
    ensures CheckFirstPiece(Load(d).value, origin, sha1) == Ok(sha1(origin[..Min(n, |origin|)]) == buffer[..20])
  {
    LookupStored(d, InfoKey, info);
    var t := Load(d).value;
    PieceLengthReadsStored(t, n);
    PiecesReadsStored(t, buffer);
  }
}
