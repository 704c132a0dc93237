/**
 * The reader that FileReaderRedirect and FileRdr delegate to, and the typed
 * extraction operators `>>` that FileReaderBase and FileReader build on Read.
 *
 * The file-backed bodies of FileReader::Tell, Seek, Read and Gets are not part
 * of this model. Class FileReader below gives them a plain in-memory behaviour
 * (a byte sequence and a cursor) so that what the visible code does with them
 * can be stated; only Extract and GetLength model visible code.
 */
module Readers {
  import opened Endian

  /** The origins of C's fseek, which FileReader::Seek takes. */
  const SeekSet := 0
  const SeekCur := 1
  const SeekEnd := 2

  /** The byte Gets stops after. */
  const Newline: uint8 := 10

  datatype Option<T> = None | Some(value: T)

  /** Length of the line at the front of `s`: up to and including the first newline, at most `max` bytes. */
  function LineLength(s: seq<uint8>, max: int): (n: nat)
    ensures n <= |s| && (max <= 0 ==> n == 0) && (max > 0 ==> n <= max)
  {
    if max <= 0 || s == [] then 0
    else if s[0] == Newline then 1
    else 1 + LineLength(s[1..], max - 1)
  }

  class FileReader {
    /** The bytes of the stream. */
    var data: seq<uint8>
    /** The current position, an offset into `data`. */
    var pos: int
    /** Every (offset, origin) pair Seek was called with, in order. */
    ghost var seekLog: seq<(int, int)>
    /** Set once the reader has been deleted. */
    ghost var deleted: bool

    ghost predicate Valid()
      reads this
    {
      0 <= pos <= |data|
    }

    constructor (data: seq<uint8>)
      ensures Valid() && this.data == data && pos == 0
      ensures seekLog == [] && !deleted
    {
      this.data := data;
      pos := 0;
      seekLog := [];
      deleted := false;
    }

    /** The position `(offset, origin)` designates, or -1 for an unknown origin. */
    function SeekTarget(offset: int, origin: int): (t: int)
      reads this
    {
      if origin == SeekSet then offset
      else if origin == SeekCur then pos + offset
      else if origin == SeekEnd then |data| + offset
      else -1
    }

    /** What Seek returns: 0 when the target lies in the stream, -1 otherwise. */
    function SeekOutcome(offset: int, origin: int): (r: int)
      reads this
    {
      var t := SeekTarget(offset, origin);
      if 0 <= t <= |data| then 0 else -1
    }

    /** How many bytes a Read of `len` delivers. */
    function ReadCount(len: int): (n: int)
      reads this
    {
      if len <= 0 then 0
      else if len <= |data| - pos then len
      else |data| - pos
    }

    method Tell() returns (p: int)
      ensures p == pos
    {
      p := pos;
    }

    method Seek(offset: int, origin: int) returns (r: int)
      requires Valid()
      modifies this`pos, this`seekLog
      ensures Valid()
      ensures seekLog == old(seekLog) + [(offset, origin)]
      ensures r == old(SeekOutcome(offset, origin))
      ensures pos == if r == 0 then old(SeekTarget(offset, origin)) else old(pos)
    {
      seekLog := seekLog + [(offset, origin)];
      var t := SeekTarget(offset, origin);
      if 0 <= t <= |data| {
        pos := t;
        r := 0;
      } else {
        r := -1;
      }
    }

    /** Reads up to `len` bytes; the count Read returns is `|got|`. */
    method Read(len: int) returns (got: seq<uint8>)
      requires Valid()
      modifies this`pos
      ensures Valid()
      ensures |got| == old(ReadCount(len))
      ensures got == old(data[pos..pos + ReadCount(len)])
      ensures pos == old(pos) + |got|
    {
      var n := ReadCount(len);
      got := data[pos..pos + n];
      pos := pos + n;
    }

    /** Reads one line of at most `len - 1` bytes, None when nothing could be read. */
    method Gets(len: int) returns (line: Option<seq<uint8>>)
      requires Valid()
      modifies this`pos
      ensures Valid()
      ensures var n := old(LineLength(data[pos..], len - 1));
        pos == old(pos) + n &&
        line == if n == 0 then None else Some(old(data[pos..pos + n]))
    {
      var n := LineLength(data[pos..], len - 1);
      if n == 0 {
        line := None;
      } else {
        line := Some(data[pos..pos + n]);
        pos := pos + n;
      }
    }

    /** `GetLength() const { return Length; }`: the length of the stream. */
    function GetLength(): (n: int)
      reads this
      ensures n == |data|
    {
      |data|
    }

    /**
     * `*this >> v` for each integer type `k`: reads k.Width() bytes into `v`
     * and converts them from little-endian order; the count Read returns is
     * not looked at, so a short read keeps the old contents of the bytes it
     * did not reach.
     */
    method Extract(k: Scalar, v: int) returns (r: int)
      requires Valid() && k.Holds(v)
      modifies this`pos
      ensures Valid()
      ensures pos == old(pos) + old(ReadCount(k.Width()))
      ensures r == Extracted(k, old(data[pos..pos + ReadCount(k.Width())]), v)
    {
      var got := Read(k.Width());
      r := Extracted(k, got, v);
    }

    /** `delete`: a reader may be deleted only once. */
    method Delete()
      requires !deleted
      modifies this`deleted
      ensures deleted
    {
      deleted := true;
    }
  }
}
