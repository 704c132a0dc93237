/**
 * FileRdr: a move-only handle that owns at most one reader. Moving empties
 * the source, closing deletes the held reader and empties the handle, and
 * Reader() hands the reader out without deleting it. Deletion is tracked by
 * the ghost flag FileReader.deleted, whose Delete may run only once per reader.
 */
module Handle {
  import opened Endian
  import opened Readers

  /** The C++ conversion `(int)len`: the low 32 bits of `x`, read as two's complement. */
  function ToInt(x: int): (r: int)
    ensures -0x8000_0000 <= r < 0x8000_0000
    ensures (x - r) % 0x1_0000_0000 == 0
  {
    var m := x % 0x1_0000_0000;
    if m < 0x8000_0000 then m else m - 0x1_0000_0000
  }

  /** A length that fits in an int is passed on unchanged. */
  lemma ToIntKeepsSmall(x: int)
    requires -0x8000_0000 <= x < 0x8000_0000
    ensures ToInt(x) == x
  {
  }

  class FileRdr {
    /** The owned reader, or null when the handle is empty. */
    var mReader: FileReader?

    /** A held reader is in a usable state and has not been deleted. */
    ghost predicate Valid()
      reads this, mReader
    {
      mReader != null ==> mReader.Valid() && !mReader.deleted
    }

    constructor ()
      ensures Valid() && mReader == null
    {
      mReader := null;
    }

    /** `explicit FileRdr(FileReader *r)`: takes ownership of `r`. */
    constructor Adopt(r: FileReader?)
      requires r != null ==> r.Valid() && !r.deleted
      ensures Valid() && mReader == r
    {
      mReader := r;
    }

    /** The move constructor: takes the reader of `r` and leaves `r` empty. */
    constructor Move(r: FileRdr)
      requires r.Valid()
      modifies r
      ensures Valid() && mReader == old(r.mReader)
      ensures r.mReader == null && !r.IsOpen()
    {
      mReader := r.mReader;
      new;
      r.mReader := null;
    }

    function IsOpen(): (b: bool)
      reads this
      ensures b <==> mReader != null
    {
      mReader != null
    }

    /** Hands the reader out: the handle is left empty and the reader is not deleted. */
    method Reader() returns (r: FileReader?)
      requires Valid()
      modifies this
      ensures Valid() && mReader == null
      ensures r == old(mReader)
      ensures r != null ==> r.Valid() && !r.deleted
    {
      r := mReader;
      mReader := null;
    }

    /**
     * Deletes the held reader, if any, and empties the handle. The
     * precondition of Delete makes every Close delete a reader at most once;
     * on an empty handle Close changes nothing.
     */
    method Close()
      requires Valid()
      modifies this, mReader
      ensures Valid() && mReader == null && !IsOpen()
      ensures old(mReader) != null ==> old(mReader).deleted
    {
      if mReader != null {
        mReader.Delete();
      }
      mReader := null;
    }

    /** `~FileRdr`: closes the handle. */
    method Dispose()
      requires Valid()
      modifies this, mReader
      ensures mReader == null
      ensures old(mReader) != null ==> old(mReader).deleted
    {
      Close();
    }

    /**
     * Move assignment: deletes the reader this handle held, then takes the
     * reader of `r` and leaves `r` empty. Two distinct handles never share a
     * reader (copying is deleted), so the reader taken over is still alive.
     * Assigning a handle to itself closes it.
     */
    method MoveAssign(r: FileRdr)
      requires Valid() && r.Valid()
      requires (this != r && mReader != null) ==> mReader != r.mReader
      modifies this, r, mReader
      ensures Valid() && r.mReader == null && !r.IsOpen()
      ensures this != r ==> mReader == old(r.mReader)
      ensures this == r ==> mReader == null
      ensures old(mReader) != null ==> old(mReader).deleted
      ensures this != r && old(r.mReader) != null ==> !old(r.mReader).deleted
    {
      Close();
      mReader := r.mReader;
      r.mReader := null;
    }

    method Tell() returns (p: int)
      requires mReader != null
      ensures p == mReader.pos
    {
      p := mReader.Tell();
    }

    method Seek(offset: int, origin: int) returns (r: int)
      requires Valid() && mReader != null
      requires origin in {SeekSet, SeekCur, SeekEnd}
      modifies mReader
      ensures Valid() && mReader.data == old(mReader.data)
      ensures mReader.seekLog == old(mReader.seekLog) + [(offset, origin)]
      ensures r == old(mReader.SeekOutcome(offset, origin))
      ensures mReader.pos == if r == 0 then old(mReader.SeekTarget(offset, origin)) else old(mReader.pos)
    {
      r := mReader.Seek(offset, origin);
    }

    method Read(len: int) returns (got: seq<uint8>)
      requires Valid() && mReader != null
      modifies mReader
      ensures Valid() && mReader.data == old(mReader.data) && mReader.seekLog == old(mReader.seekLog)
      ensures got == old(mReader.data[mReader.pos..mReader.pos + mReader.ReadCount(len)])
      ensures mReader.pos == old(mReader.pos) + |got|
    {
      got := mReader.Read(len);
    }

    /** Passes the length on through `(int)`, which keeps only its low 32 bits. */
    method Gets(len: int) returns (line: Option<seq<uint8>>)
      requires Valid() && mReader != null
      modifies mReader
      ensures Valid() && mReader.data == old(mReader.data) && mReader.seekLog == old(mReader.seekLog)
      ensures var n := old(LineLength(mReader.data[mReader.pos..], ToInt(len) - 1));
        mReader.pos == old(mReader.pos) + n &&
        line == if n == 0 then None else Some(old(mReader.data[mReader.pos..mReader.pos + n]))
    {
      line := mReader.Gets(ToInt(len));
    }

    method GetLength() returns (n: int)
      requires mReader != null
      ensures n == |mReader.data|
    {
      n := mReader.GetLength();
    }

    /**
     * `*this >> v` for uint8_t, int8_t, uint16_t, int16_t and uint32_t (there
     * is no int overload): reads k.Width() bytes through the held reader and
     * ignores the count it returns.
     */
    method Extract(k: Scalar, v: int) returns (r: int)
      requires Valid() && mReader != null && k != I32 && k.Holds(v)
      modifies mReader
      ensures Valid() && mReader.data == old(mReader.data) && mReader.seekLog == old(mReader.seekLog)
      ensures mReader.pos == old(mReader.pos) + old(mReader.ReadCount(k.Width()))
      ensures r == Extracted(k, old(mReader.data[mReader.pos..mReader.pos + mReader.ReadCount(k.Width())]), v)
    {
      var got := mReader.Read(k.Width());
      r := Extracted(k, got, v);
    }
  }

  /**
   * A 12-byte block 01 00 02 00 03 00 ...: two 16-bit extractions give 1
   * and then 2.
   */
  method ShortsScenario()
  {
    var block: seq<uint8> := [1, 0, 2, 0, 3, 0, 4, 0, 5, 0, 6, 0];
    var reader := new FileReader(block);
    var h := new FileRdr.Adopt(reader);
    var a := h.Extract(U16, 0);
    assert reader.data == block && reader.pos == 2;
    LittleShortValue(1, 0);
    assert block[0..2] == [1, 0] by { assert |block| == 12 && block[0] == 1 && block[1] == 0; }
    assert a == 1 by { ExtractedComplete(U16, [1, 0], 0); }
    var b := h.Extract(U16, 0);
    assert reader.data == block && reader.pos == 4;
    LittleShortValue(2, 0);
    assert block[2..4] == [2, 0] by { assert |block| == 12 && block[2] == 2 && block[3] == 0; }
    assert b == 2 by { ExtractedComplete(U16, [2, 0], 0); }
  }

  /** At the end of a block a 16-bit extraction leaves its target as it was. */
  method EndOfBlockScenario()
  {
    var block: seq<uint8> := [1, 0, 2, 0];
    var reader := new FileReader(block);
    var h := new FileRdr.Adopt(reader);
    var s := h.Seek(0, SeekEnd);
    assert s == 0 && reader.pos == 4;
    var c := h.Extract(U16, 77);
    assert reader.data[4..4] == [];
    assert c == 77 by { ExtractedNothing(U16, 77); }
  }

  /**
   * Ownership over a move: the source handle ends empty, the destination
   * holds the reader, a move assignment deletes what the destination held
   * before, and a second Close does nothing.
   */
  method OwnershipScenario()
  {
    var first := new FileReader([1, 2, 3]);
    var second := new FileReader([4, 5]);
    var a := new FileRdr.Adopt(first);
    var b := new FileRdr.Move(a);
    assert !a.IsOpen() && b.mReader == first;
    var c := new FileRdr.Adopt(second);
    b.MoveAssign(c);
    assert first.deleted && !second.deleted;
    assert b.mReader == second && !c.IsOpen();
    b.Close();
    assert second.deleted && !b.IsOpen();
    b.Close();
    assert !b.IsOpen();
    var third := new FileReader([]);
    var d := new FileRdr.Adopt(third);
    var released := d.Reader();
    assert released != null && !released.deleted && !d.IsOpen();
  }
}
