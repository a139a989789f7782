# torrent-merge: manifest and piece-digest model

A Dafny model of the read-only metadata layer of `tmerge.py`. This is a
repair tool that checks a data file against a BitTorrent manifest (a
`.torrent` file, BEP 3). The model covers:

- **`Pieces`** (module `PieceDigests`): the piece-digest table. It is an
  indexed view over the `pieces` byte string of the info dictionary, which
  is the concatenation of one 20-byte SHA-1 digest per piece.
  `Pieces.Get(i)` is Python's `buffer[20*i : 20*i+20]`, including the
  clipping of slices that run past the end. The record size `pieceHashSize` is a
  constant member of the datatype: 20 for every table, and no operation
  changes it.
- **`Torrent`** (module `Metainfo`): the accessors over the decoded
  document. These are `name`, `size`, `piece_length`, `info`, `pieces`,
  `files` and `hash`.
- **The first-piece check** of the entry point (module `FirstPiece`). It
  compares the SHA-1 of the first `piece length` bytes of the origin file
  with record 0 of the table.

The decoded bencode document is a tree (module `Bencode`): integers, byte
strings, lists and ordered dictionaries. The model gives Python's meaning
to subscripting, iterating and `.decode()` on that tree. That includes the
exceptions raised on a missing key (KeyError), on a value of the wrong kind
(TypeError, AttributeError) and on bytes that are not UTF-8
(UnicodeDecodeError). These outcomes are `Result` values.

Three foreign calls are function-valued parameters: `bencodepy.encode`
(`Encoder`), `hashlib.sha1` (`Sha1`, whose digests always have 20 bytes)
and UTF-8 decoding (`Utf8`). The model fixes only their result types.

The code is looser than a reader of BEP 3 might expect, and the model follows the code:

- Past the end of the table, `Get` returns the empty sequence, as Python
  slicing does. It does not signal an out-of-range error.
- Building a `Torrent` needs only the `info` key. A missing `name`,
  `length` or `piece length` is reported by the accessor that reads it,
  not at load time.
- No check ties the number of digests to the total size. Nothing ties the
  total size to the file sizes either.

## Model

| member | source | states |
|---|---|---|
| `Bencode.Lookup` | tmerge.py:34 | `d[k]` succeeds exactly when `d` is a dictionary holding `k`, and then returns a value stored under `k`. It raises KeyError(k) on a dictionary without the key and TypeError on any other kind of value. |
| `Bencode.LookupStored` | tmerge.py:33-47 | In a dictionary with distinct keys, `d[k]` returns the value stored under `k`. |
| `Bencode.Iterate` | tmerge.py:51-53 | Iterating a value raises TypeError exactly when it is an integer. A list yields its items, a byte string its bytes as integers, and a dictionary its keys as byte strings, in order. |
| `Bencode.MapAll` | tmerge.py:51-53 | `map(f, items)`, fully consumed, succeeds exactly when `f` succeeds on every item. It then gives one result per item, in order. Otherwise it raises the exception of the first item on which `f` fails. |
| `Bencode.DecodeText` | tmerge.py:34 | `.decode()` succeeds exactly on a byte string that is valid UTF-8, and returns its text. Invalid bytes raise UnicodeDecodeError; a non-byte-string value raises AttributeError. |
| `Bencode.AssignOtherKey` | tmerge.py:27-31 | Setting one key of a dictionary leaves the lookup of every other key unchanged. This underlies the claim that the digest ignores other top-level keys. |
| `PieceDigests.Slice` | tmerge.py:21 | Python slicing with non-negative bounds: exact inside the buffer, clipped at its end, and empty from the end onward or when the end is not past the start. |
| `PieceDigests.Pieces.Get` | tmerge.py:18-21 | Record `i` is never longer than 20 bytes. It is exactly `buffer[20i .. 20i+20]` when that range fits. It is the short tail when the buffer ends inside the range, and empty (not an error) when `20i` is at or past the end. |
| `PieceDigests.RecordsUpToCount` | tmerge.py:18-21 | A record is non-empty exactly for indices below the rounded-up count. Every record before the last one is a full 20-byte digest, and so is every record when the buffer length is a multiple of 20. |
| `PieceDigests.JoinedIsPrefix` | tmerge.py:18-21 | Records `0 .. n-1`, concatenated, are exactly the first `min(20n, len)` bytes of the buffer. So consecutive records address adjacent ranges with no gap and no overlap. |
| `PieceDigests.PiecesReassemble` | tmerge.py:18-21 | Concatenating all records reproduces the buffer. When the length is a multiple of 20, that is `len / 20` records. |
| `PieceDigests.AlteredByte` | tmerge.py:18-21 | Changing the byte at offset `o` changes record `o / 20` and no other record. So distinct indices address disjoint ranges. |
| `Metainfo.Load` | tmerge.py:26-28 | Building a `Torrent` from a decoded document succeeds exactly when the document is a dictionary with an `info` key. It keeps the document and the value stored under `info`. Otherwise it raises TypeError (not a dictionary) or KeyError(`info`). |
| `Metainfo.Info` | tmerge.py:42-43 | `info()` succeeds exactly when `info` holds a dictionary or a list. It then returns a value equal to the one the document stores under `info`. An integer or byte string has no `copy` and raises AttributeError. |
| `Metainfo.Hash` | tmerge.py:30-31 | `hash()` is the SHA-1 of the encoding of the value the document stores under `info`. When `info()` succeeds, that is the value `info()` returns. |
| `Metainfo.HashDependsOnInfoOnly` | tmerge.py:27-31 | Two documents that store the same `info` dictionary load to torrents with equal digests, whatever their other top-level keys hold. |
| `Metainfo.HashIgnoresOtherKeys` | tmerge.py:27-31 | Adding or replacing any top-level key other than `info` keeps the document loadable and leaves the digest unchanged. |
| `Metainfo.Name` | tmerge.py:33-34 | A successful `name()` is the UTF-8 text of a byte string stored under `name`. It raises TypeError when `info` is not a dictionary and KeyError(`name`) when the key is absent. |
| `Metainfo.NameReadsStored` | tmerge.py:33-34 | When `name` holds a byte string, `name()` returns its decoded text, or raises UnicodeDecodeError if the bytes are not UTF-8. |
| `Metainfo.Size` | tmerge.py:36-37 | A successful `size()` is an integer stored under `length`. It raises TypeError when `info` is not a dictionary and KeyError(`length`) when the key is absent. |
| `Metainfo.SizeReadsStored` | tmerge.py:36-37 | When `length` holds an integer, `size()` returns it. |
| `Metainfo.PieceLength` | tmerge.py:39-40 | A successful `piece_length()` is an integer stored under `piece length`. It raises TypeError when `info` is not a dictionary and KeyError(`piece length`) when the key is absent. |
| `Metainfo.PieceLengthReadsStored` | tmerge.py:39-40 | When `piece length` holds an integer, `piece_length()` returns it. |
| `Metainfo.PiecesOf` | tmerge.py:45-47 | A successful `pieces()` is a table over a byte string stored under `pieces`. It raises TypeError when `info` is not a dictionary and KeyError(`pieces`) when the key is absent. |
| `Metainfo.PiecesReadsStored` | tmerge.py:45-47 | `pieces()` wraps the stored byte string unchanged. |
| `Metainfo.EntryFile` | tmerge.py:52 | A file read from a list element has a path obtained from a value stored under `path`, and its size stored under `length`. An element that is not a dictionary raises TypeError. |
| `Metainfo.ComponentPath` | tmerge.py:52 | A BEP 3 path is a list. Its successful reading is the `/`-join of its components, each decoded as UTF-8. A path that is not a list raises TypeError. |
| `Metainfo.Files` | tmerge.py:49-55 | Without a `files` key, `files()` is exactly `[File(name(), size())]`. It fails exactly when `name()` or `size()` fails, with `name()`'s exception first. A non-dictionary `info` raises TypeError. |
| `Metainfo.FilesAsWritten` | tmerge.py:49-55 | The code as written agrees with `Files` whenever there is no `files` key, and raises TypeError on a non-dictionary `info`. |
| `Metainfo.ListedFilesAsWrittenInOrder` | tmerge.py:50-53 | As written, with a `files` list, `files()` gives one `File` per list element, in list order, each read with `path.decode()`. It fails exactly when some element cannot be read, and then with the first such element's exception. |
| `Metainfo.EntryFileAsWrittenReadsEntry` | tmerge.py:52 | As written, an entry whose `path` is a UTF-8 byte string and whose `length` is an integer reads as the decoded path with that length. |
| `Metainfo.ListedFilesInOrder` | tmerge.py:50-53 | With a `files` list, `files()` gives one `File` per list element, in list order, each read from that element. It fails exactly when some element cannot be read, and then with the first such element's exception. |
| `Metainfo.EntryFileReadsEntry` | tmerge.py:52 | A BEP 3 entry (a `path` list of UTF-8 components, an integer `length`) reads as the joined path with that length. |
| `Metainfo.AsWrittenRejectsComponentPaths` | tmerge.py:52 | As written, `files()` raises AttributeError on every multi-file torrent whose first entry has a list-valued `path`, which is the BEP 3 form. |
| `Metainfo.Bep3ExampleFiles` | tmerge.py:49-55 | Take a concrete BEP 3 document listing the file `a` of 5 bytes. The code as written raises AttributeError on it; the corrected reading yields `[File("a", 5)]`. |
| `FirstPiece.ReadFromStart` | tmerge.py:73-77 | On a file opened `"rb"`, `read(n)` after `seek(0)` gives the first `min(n, len)` bytes for `0 <= n <= sys.maxsize` (allocation failure aside) and the whole file for `n == -1`. An `n` outside the 64-bit `Py_ssize_t` range raises OverflowError; any other `n < -1` raises ValueError. |
| `FirstPiece.CheckFirstPiece` | tmerge.py:75-85 | Allocation failure in `read` aside, the check returns a verdict exactly when `piece_length()` succeeds with a value from -1 to `sys.maxsize`, `pieces()` succeeds and the table holds at least 20 bytes. A piece length outside the 64-bit `Py_ssize_t` range raises OverflowError in `read`; any other piece length below -1 raises ValueError. The verdict is true exactly when the digest of the origin's first `piece_length()` bytes equals the table's first 20 bytes. A table shorter than 20 bytes fails the length assertion. Accessor exceptions propagate, `piece_length()`'s first. |
| `FirstPiece.FirstPieceVerdict` | tmerge.py:77-85 | Take a well-formed document with a piece length in `0 .. sys.maxsize` and at least one full digest. Allocation failure in `read` aside, the check never raises on it. It answers whether `sha1(origin[..min(piece length, len)])` equals `pieces[0..20]`. |

## Left out

- Decoding and encoding bencode (`bencodepy`) are not modelled. The document is given as a decoded tree, and `encode` is a parameter.
- SHA-1 (`hashlib.sha1`) is a parameter whose results have 20 bytes. `hash()` returns a hashlib object; it is modelled by that object's digest.
- Python's UTF-8 codec is a parameter that returns no text on invalid input.
- File I/O (`open`, `read`, `seek`): the origin file is its byte content and the torrent file is its decoded document. The `config` module is not part of this model.
- All console output is left out, including `torrent_print_metadata` (tmerge.py:58-65). That function is not only formatting: it calls `name()`, `hash()` and `piece_length()` and iterates all of `files()`. The entry point runs it (tmerge.py:71) before the first-piece check. `FirstPiece.CheckFirstPiece` models tmerge.py:75-85 on its own. The program reaches those lines only when those calls succeed and the line-74 assertion holds. In particular, the AttributeError of the finding below ends the program there on every BEP 3 multi-file torrent.
- The assertion `piece_length() == 262144` (tmerge.py:74) is left out. It is tied to one test file and is not an invariant of the tool. Without it, the model admits any piece length: -1 reads the whole file, other negative values raise ValueError in `read`, and values outside the `Py_ssize_t` range raise OverflowError there.
- Metainfo.Info: `dict.copy()` and `list.copy()` are shallow, so nested lists and dictionaries stay shared with the torrent. The model's values are immutable, so it does not capture that aliasing.
- FirstPiece.ReadFromStart: `sys.maxsize` is platform-dependent. The model fixes it at 2^63 - 1, the 64-bit value; on a 32-bit Python the OverflowError bound of `CheckFirstPiece` and `FirstPieceVerdict` is 2^31 - 1 instead. Also, a buffered `read(n)` reserves `n` bytes before reading, so a large piece length raises MemoryError, or OverflowError near `sys.maxsize`. The model assumes that the reservation succeeds.
- Negative indices to `Pieces.__getitem__` are not modelled. There, Python counts slice bounds from the end.
- Dictionaries whose keys repeat are not modelled. A decoder never builds one. The lemmas that read a stored value require `DistinctKeys`.
- `files()` returns a lazy `map`, so an exception surfaces only when iteration reaches the failing element. The model returns the fully consumed list, or the first element's exception.
- A non-dictionary `info` is not a dictionary in Python either: `in` on a byte string or list tests substrings or elements. Every such path still ends in TypeError, so the model reports TypeError directly.
- Metainfo.Size: Python returns whatever is stored under `length`, since the `int` annotation is not enforced. The model raises TypeError for a non-integer.
- Metainfo.EntryFile: Python puts whatever is stored under `length` in a listed entry into the `File`. The model raises TypeError for a non-integer.
- Metainfo.PieceLength: the same as `size()`: a non-integer `piece length` is a TypeError in the model.
- Metainfo.PiecesOf: Python wraps any value stored under `pieces`. Slicing would also work on a list. The model accepts only a byte string and raises TypeError otherwise.
- The multi-source planner, the merge executor, the digest scanner and the table comparison `compareWith` are not modelled. No code for them exists in `tmerge.py`.

## Findings

| source | as written | input that shows it | evidently intended | confidence | as-written member | corrected member |
|---|---|---|---|---|---|---|
| tmerge.py:52 | `f[b"path"].decode()` treats a listed file's path as a byte string | any BEP 3 multi-file torrent, whose `path` is a list of components, such as `Metainfo.Bep3Example` with path `["a"]` and length 5: `files()` raises AttributeError (a list has no `decode`) | decode each path component and join them into one relative path | medium (the joining separator is a choice, and BEP 3 calls an empty `path` list an error, which the corrected reading turns into the path `""`); not executed | `Metainfo.FilesAsWritten` | `Metainfo.Files` |

`Metainfo.AsWrittenRejectsComponentPaths` and `Metainfo.Bep3ExampleFiles`
prove the as-written failure. `Metainfo.ListedFilesAsWrittenInOrder` and
`Metainfo.EntryFileAsWrittenReadsEntry` state what the code as written does
with byte-string paths. `Metainfo.ListedFilesInOrder` and
`Metainfo.EntryFileReadsEntry` prove the corrected reading.
