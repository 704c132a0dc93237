/**
 * FileReaderRedirect: a window [StartPos, StartPos + Length) over a parent
 * reader it does not own. Seek translates window offsets into absolute parent
 * offsets and refuses targets outside the window; Read and Gets go to the
 * parent unchanged; Tell maps the parent position back, exactly as written
 * (it subtracts StartPos twice).
 */
module Redirect {
  import opened Endian
  import opened Readers

  /** The absolute parent offset the `switch` of Seek computes; an unknown origin leaves `offset` as it is. */
  function Target(offset: int, origin: int, start: int, length: int, parentPos: int): (t: int)
    ensures origin == SeekSet ==> t - start == offset
    ensures origin == SeekEnd ==> t - (start + length) == offset
    ensures origin == SeekCur ==> t - parentPos == offset
    ensures origin !in {SeekSet, SeekCur, SeekEnd} ==> t == offset
  {
    if origin == SeekSet then offset + start
    else if origin == SeekEnd then offset + (start + length)
    else if origin == SeekCur then offset + parentPos
    else offset
  }

  /** The range test of Seek: the absolute offset lies in [start, start + length). */
  predicate InWindow(offset: int, start: int, length: int): (b: bool)
    ensures b <==> start <= offset < start + length
  {
    !(offset < start || offset >= start + length)
  }

  /** What Tell returns for parent position `p`, as the source computes it. */
  function TellAsWritten(p: int, start: int, length: int): (r: int)
    ensures r == -1 <==> !(2 * start <= p < 2 * start + length)
    ensures r != -1 ==> r == p - 2 * start && 0 <= r < length
  {
    var l := p - start;
    if l < start || l >= start + length then -1 else l - start
  }

  /** The window position of parent position `p`, or -1 outside the window: what Tell is meant to return. */
  function WindowTell(p: int, start: int, length: int): (r: int)
    ensures r == -1 <==> !InWindow(p, start, length)
    ensures r != -1 ==> 0 <= r < length && p == start + r
  {
    if InWindow(p, start, length) then p - start else -1
  }

  /** A SEEK_SET target is accepted exactly when it lies in [0, length). */
  lemma SeekSetAccepts(k: int, start: int, length: int, parentPos: int)
    ensures InWindow(Target(k, SeekSet, start, length, parentPos), start, length) <==> 0 <= k < length
  {
  }

  /** A SEEK_END target is accepted exactly when it lies in [-length, 0); Seek(0, SEEK_END) is always refused. */
  lemma SeekEndAccepts(k: int, start: int, length: int, parentPos: int)
    ensures InWindow(Target(k, SeekEnd, start, length, parentPos), start, length) <==> -length <= k < 0
    ensures !InWindow(Target(0, SeekEnd, start, length, parentPos), start, length)
  {
  }

  /** SEEK_CUR and SEEK_END are SEEK_SET from the current window position and from the window's end. */
  lemma OriginsAgree(d: int, start: int, length: int, parentPos: int)
    requires InWindow(parentPos, start, length)
    ensures Target(d, SeekCur, start, length, parentPos)
         == Target(WindowTell(parentPos, start, length) + d, SeekSet, start, length, parentPos)
    ensures Target(d, SeekEnd, start, length, parentPos) == Target(length + d, SeekSet, start, length, parentPos)
  {
  }

  /** After an accepted Seek(k, SEEK_SET) the window position is k. */
  lemma WindowTellAfterSeek(k: int, start: int, length: int, parentPos: int)
    requires InWindow(Target(k, SeekSet, start, length, parentPos), start, length)
    ensures WindowTell(Target(k, SeekSet, start, length, parentPos), start, length) == k
  {
  }

  /** With the window at offset 0 the Tell as written is the intended one. */
  lemma TellAsWrittenAtZero(p: int, length: int)
    ensures TellAsWritten(p, 0, length) == WindowTell(p, 0, length)
    ensures 0 <= p < length ==> TellAsWritten(p, 0, length) == p
  {
  }

  /**
   * With the window further in, Tell as written misreads the window start:
   * right after Seek(0, SEEK_SET) it answers -1 instead of 0 (for a window
   * [20, 50) the parent is at 20 and Tell gives -1).
   */
  lemma TellAsWrittenMissesStart(start: int, length: int)
    requires start > 0 && length > 0
    ensures Target(0, SeekSet, start, length, 0) == start
    ensures WindowTell(start, start, length) == 0
    ensures TellAsWritten(start, start, length) == -1
  {
  }

  class FileReaderRedirect {
    const parent: FileReader
    const startPos: int
    const length: int

    constructor (parent: FileReader, start: int, length: int)
      ensures this.parent == parent && startPos == start && this.length == length
    {
      this.parent := parent;
      startPos := start;
      this.length := length;
    }

    method Tell() returns (r: int)
      ensures r == TellAsWritten(parent.pos, startPos, length)
    {
      var p := parent.Tell();
      var l := p - startPos;
      if l < startPos || l >= startPos + length {
        return -1;
      }
      return l - startPos;
    }

    method Seek(offset: int, origin: int) returns (r: int)
      requires parent.Valid()
      modifies parent
      ensures parent.Valid() && parent.data == old(parent.data) && parent.deleted == old(parent.deleted)
      ensures var target := Target(offset, origin, startPos, length, old(parent.pos));
        if InWindow(target, startPos, length) then
          parent.seekLog == old(parent.seekLog) + [(target, SeekSet)] &&
          r == old(parent.SeekOutcome(target, SeekSet)) &&
          parent.pos == (if r == 0 then target else old(parent.pos))
        else
          r == -1 && parent.seekLog == old(parent.seekLog) && parent.pos == old(parent.pos)
    {
      var off := offset;
      if origin == SeekSet {
        off := off + startPos;
      } else if origin == SeekEnd {
        off := off + (startPos + length);
      } else if origin == SeekCur {
        var p := parent.Tell();
        off := off + p;
      }
      if off < startPos || off >= startPos + length {
        return -1;
      }
      r := parent.Seek(off, SeekSet);
    }

    method Read(len: int) returns (got: seq<uint8>)
      requires parent.Valid()
      modifies parent
      ensures parent.Valid() && parent.data == old(parent.data) && parent.deleted == old(parent.deleted)
      ensures parent.seekLog == old(parent.seekLog)
      ensures got == old(parent.data[parent.pos..parent.pos + parent.ReadCount(len)])
      ensures parent.pos == old(parent.pos) + |got|
    {
      got := parent.Read(len);
    }

    method Gets(len: int) returns (line: Option<seq<uint8>>)
      requires parent.Valid()
      modifies parent
      ensures parent.Valid() && parent.data == old(parent.data) && parent.deleted == old(parent.deleted)
      ensures parent.seekLog == old(parent.seekLog)
      ensures var n := old(LineLength(parent.data[parent.pos..], len - 1));
        parent.pos == old(parent.pos) + n &&
        line == if n == 0 then None else Some(old(parent.data[parent.pos..parent.pos + n]))
    {
      line := parent.Gets(len);
    }

    method GetLength() returns (n: int)
      ensures n == length
    {
      n := length;
    }
  }

  /**
   * A window [20, 50) over a 100-byte parent: its length is 30, Seek(29,
   * SEEK_SET) is accepted and Seek(30, SEEK_SET) refused, Tell then answers 9
   * rather than 29, and a Read of two bytes from window position 29 also
   * delivers the byte after the window.
   */
  method WindowScenario()
  {
    var bytes := seq(100, i => 7);
    var parent := new FileReader(bytes);
    var w := new FileReaderRedirect(parent, 20, 30);
    var n := w.GetLength();
    assert n == 30;
    var r := w.Seek(30, SeekSet);
    assert r == -1 && parent.pos == 0;
    r := w.Seek(29, SeekSet);
    assert r == 0 && parent.pos == 49;
    var t := w.Tell();
    assert t == 9 && WindowTell(parent.pos, 20, 30) == 29;
    var got := w.Read(2);
    assert |got| == 2 && parent.pos == 51;
    r := w.Seek(0, SeekEnd);
    assert r == -1 && parent.pos == 51;
  }
}
