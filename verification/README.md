# Readers of src/files.h, modelled in Dafny

This project models the inline code of gzdoom's `src/files.h`, the header of
its byte-stream readers:

- **Typed extraction** (`endian.dfy`, `reader.dfy`, `handle.dfy`). The
  `operator>>` overloads of `FileReaderBase`, `FileReader` and `FileRdr`
  read 1, 2 or 4 bytes into their target through `Read`. They convert the
  bytes with `LittleShort`/`LittleLong` and never look at the count `Read`
  returns. Module `Endian` gives the little-endian decode and encode, the
  two's-complement reading of the signed types, and `Extracted`. That
  function is the value left in the target when `Read` delivered only some
  of the bytes: on a little-endian host the bytes not reached keep their
  old contents. `FileReader.Extract` stands for the overloads of both
  `FileReaderBase` and `FileReader`, so it also accepts the `int` kind,
  which only the base declares.
- **`FileReaderRedirect`** (`redirect.dfy`). This is a window
  `[StartPos, StartPos + Length)` over a parent reader. `Seek` turns a
  SEEK_SET, SEEK_END or SEEK_CUR offset into an absolute parent offset. It
  refuses targets outside the window with `-1`. Otherwise it hands the
  target to the parent as one `Seek(target, SEEK_SET)` and returns the
  parent's answer. `Read` and `Gets` go to the parent unchanged, and
  `GetLength` is the construction length. `Tell` is modelled as written,
  subtracting `StartPos` twice (see Findings).
- **`FileRdr`** (`handle.dfy`). This is the move-only handle over one
  nullable `mReader`. The move constructor and move assignment leave the
  source empty. Move assignment and `Close` delete the held reader first.
  `Reader()` releases the reader without deleting it. A ghost flag
  `FileReader.deleted` records deletion. `FileReader.Delete` requires the
  flag to be clear, so every verified call site deletes a reader at most
  once.

The parent reader is class `Readers.FileReader`. The file-backed bodies of
its `Tell`, `Seek`, `Read` and `Gets` are not part of this model. Here they
work on an in-memory byte sequence with a cursor: `Seek` answers 0 or -1
like `fseek`, `Read` delivers what remains, and `Gets` reads one line.
The class also keeps a ghost log of every `Seek` call. This lets the model
state what the visible code passes to the parent and what it returns.

## Model

| member | source | states |
|---|---|---|
| `Endian.DecodeLE` | src/files.h:64-69 | the little-endian value of n bytes lies below 256^n |
| `Endian.ToWire` | src/files.h:64-69 | a value of each integer type has exactly its width in wire bytes |
| `Endian.DecodeEncode` | src/files.h:78-83 | decoding the n-byte little-endian encoding of a value below 256^n gives the value back |
| `Endian.EncodeDecode` | src/files.h:78-83 | re-encoding a decoded byte sequence at its own width gives the same bytes |
| `Endian.ToSigned` | src/files.h:71-76 | two's-complement reading: within [-256^n/2, 256^n/2); non-negative results equal the unsigned value, negative ones are it minus 256^n |
| `Endian.ToUnsigned` | src/files.h:85-90 | the bit pattern of a signed value lies below 256^n and reads back as the same signed value |
| `Endian.UnsignedOfSigned` | src/files.h:85-90 | the bit pattern of the signed reading of u is u |
| `Endian.FromWire` | src/files.h:52-90 | the value decoded for each of uint8_t, int8_t, uint16_t, int16_t, uint32_t, int lies in that type's range |
| `Endian.FromWireToWire` | src/files.h:52-90 | every value of each type survives encoding and decoding |
| `Endian.ToWireFromWire` | src/files.h:52-90 | every byte pattern of the type's width survives decoding and encoding |
| `Endian.LittleShortValue` | src/files.h:64-76 | 16-bit extraction yields b0 + 256*b1, and for int16_t 65536 less when b1 >= 128 |
| `Endian.LittleLongValue` | src/files.h:78-90 | 32-bit extraction yields b0 + 2^8*b1 + 2^16*b2 + 2^24*b3, and for int 2^32 less when b3 >= 128 |
| `Endian.Extracted` | src/files.h:64-69 | after a possibly short read the target still holds a value of its type |
| `Endian.ExtractedBytes` | src/files.h:64-69 | the target's bytes after a short read are the bytes read followed by its old bytes beyond them |
| `Endian.ExtractedComplete` | src/files.h:78-83 | a complete read yields the decoded bytes, whatever the target held |
| `Endian.ExtractedNothing` | src/files.h:52-56 | a read that delivers nothing leaves the target unchanged: no error is signalled |
| `Readers.FileReader.Extract` | src/files.h:52-90 | `>>` consumes min(width, remaining) bytes and leaves `Extracted` of those bytes and the old target; the same code is repeated at src/files.h:121-152 |
| `Readers.FileReader.GetLength` | src/files.h:112 | the stream's length, the `Length` field; what `FileRdr::GetLength` returns |
| `Readers.FileReader.Delete` | src/files.h:555 | `delete` of a reader that has not been deleted before; afterwards it is marked deleted |
| `Redirect.FileReaderRedirect.constructor` | src/files.h:177-182 | remembers the parent, StartPos and Length |
| `Redirect.FileReaderRedirect.Tell` | src/files.h:184-189 | returns `TellAsWritten` of the parent position |
| `Redirect.TellAsWritten` | src/files.h:184-189 | -1 exactly when p - StartPos is outside [StartPos, StartPos+Length), otherwise p - 2*StartPos, which lies in [0, Length) |
| `Redirect.TellAsWrittenAtZero` | src/files.h:184-189 | with StartPos 0 the Tell as written equals the intended one and returns p for p in [0, Length) |
| `Redirect.TellAsWrittenMissesStart` | src/files.h:184-189 | with StartPos > 0 and the parent at the window start, Tell as written returns -1 where the window position is 0 |
| `Redirect.WindowTell` | src/files.h:184-189 | corrected Tell: -1 exactly outside [StartPos, StartPos+Length), otherwise the offset r in [0, Length) with p == StartPos + r |
| `Redirect.Target` | src/files.h:193-206 | the absolute target is StartPos + offset for SEEK_SET, StartPos + Length + offset for SEEK_END, the parent position + offset for SEEK_CUR, and offset itself for any other origin |
| `Redirect.InWindow` | src/files.h:207 | the range test accepts exactly the targets in [StartPos, StartPos + Length) |
| `Redirect.FileReaderRedirect.Seek` | src/files.h:191-209 | out-of-window target: -1 and the parent untouched; otherwise exactly one parent Seek(target, SEEK_SET) whose result is returned |
| `Redirect.SeekSetAccepts` | src/files.h:195-207 | SEEK_SET is accepted exactly for offsets in [0, Length) |
| `Redirect.SeekEndAccepts` | src/files.h:199-207 | SEEK_END is accepted exactly for offsets in [-Length, 0), so Seek(0, SEEK_END) is always refused |
| `Redirect.OriginsAgree` | src/files.h:193-206 | SEEK_CUR by d equals SEEK_SET to the window position plus d; SEEK_END by d equals SEEK_SET to Length + d |
| `Redirect.WindowTellAfterSeek` | src/files.h:195-208 | after an accepted Seek(k, SEEK_SET) the window position is k |
| `Redirect.FileReaderRedirect.Read` | src/files.h:211-215 | the parent's Read with the same length, with no clamp to the window |
| `Redirect.FileReaderRedirect.Gets` | src/files.h:216-219 | the parent's Gets with the same length |
| `Redirect.FileReaderRedirect.GetLength` | src/files.h:221 | always the Length given at construction |
| `Handle.FileRdr.constructor` | src/files.h:514 | a new handle is empty |
| `Handle.FileRdr.Adopt` | src/files.h:517-520 | the handle takes ownership of the given reader |
| `Handle.FileRdr.Reader` | src/files.h:521-526 | returns the held reader, leaves the handle empty and does not delete the reader |
| `Handle.FileRdr.Move` | src/files.h:528-532 | the new handle holds exactly the source's reader and the source is no longer open |
| `Handle.FileRdr.MoveAssign` | src/files.h:534-540 | deletes the reader held before, takes the source's still-live reader, leaves the source not open; self-assignment closes |
| `Handle.FileRdr.Dispose` | src/files.h:543-546 | the destructor closes: a held reader is deleted |
| `Handle.FileRdr.IsOpen` | src/files.h:548-551 | open exactly when a reader is held |
| `Handle.FileRdr.Close` | src/files.h:553-557 | deletes a held reader (at most once) and always leaves the handle empty; on an empty handle it changes nothing |
| `Handle.FileRdr.Tell` | src/files.h:565-568 | the held reader's position |
| `Handle.FileRdr.Seek` | src/files.h:570-573 | the held reader's Seek with the same offset and origin, and its result |
| `Handle.FileRdr.Read` | src/files.h:575-578 | the held reader's Read with the same length; only its position changes, no Seek is made on it |
| `Handle.ToInt` | src/files.h:580-583 | `(int)len` lies in the 32-bit range and agrees with len modulo 2^32 |
| `Handle.ToIntKeepsSmall` | src/files.h:580-583 | a length within the 32-bit range is passed on unchanged |
| `Handle.FileRdr.Gets` | src/files.h:580-583 | the held reader's Gets with the length converted by `(int)`; only its position changes, no Seek is made on it |
| `Handle.FileRdr.GetLength` | src/files.h:585-588 | the held reader's length |
| `Handle.FileRdr.Extract` | src/files.h:590-621 | `>>` for the five declared types through the held reader's Read, with the same outcome as `Readers.FileReader.Extract`; only the held reader's position changes |

## Findings

| source | as written | input that shows it | evidently intended | confidence | as-written member | corrected member |
|---|---|---|---|---|---|---|
| src/files.h:184-189 | `Tell` subtracts StartPos from the parent position, tests the difference against [StartPos, StartPos+Length), and subtracts StartPos again | window [20, 50): parent at 20 (just after Seek(0, SEEK_SET)) gives -1 instead of 0; parent at 49 gives 9 instead of 29 | -1 outside [StartPos, StartPos+Length), otherwise parent position minus StartPos | high (not executed) | `Redirect.TellAsWrittenMissesStart` | `Redirect.WindowTell` |

`FileReaderRedirect.Tell` keeps the code as written. The seek lemmas
(`OriginsAgree`, `WindowTellAfterSeek`) are stated with `WindowTell`. When
StartPos is 0 the two agree (`TellAsWrittenAtZero`). `Redirect.WindowScenario`
walks through the [20, 50) window over a 100-byte parent.

## Left out

- The file-backed `FileReader` (`Read`, `Seek`, `Tell`, `Gets`, `Open`, `Close`, `CalcFileLen`, `ResetFilePtr`) is not part of this model. Its bodies are not in the header and wrap C `FILE*` I/O. `Readers.FileReader` replaces them with an in-memory byte sequence, and no property of the model depends on more than what that class's contracts say.
- `FileReaderZ`, `FileReaderBZ2`, `FileReaderLZMA`, `MemoryReader` and `MemoryArrayReader` are not part of this model: only their declarations are in the header, and the decompressors call zlib, bzip2 and LZMA.
- `FileWriter` and `BufferWriter` are not part of this model: their `Write`, `Tell`, `Seek` and `Printf` bodies are not in the header.
- The `FileRdr` factories `OpenFile`, `OpenFilePart`, `OpenMemory` and `OpenMemoryArray` are not part of this model: their bodies are not in the header.
- Virtual dispatch is not modelled. A `FileRdr` holds a `Readers.FileReader`, and a `FileReaderRedirect` cannot be put inside one, because the model has no subtyping.
- `LittleShort` and `LittleLong` are modelled for a little-endian host, where they change nothing. The byte swap on a big-endian host is not modelled.
- Integers are unbounded. Overflow of `long` in the offset arithmetic of `FileReaderRedirect::Seek` is not modelled. The `(long)` casts in `FileRdr::Seek` and `FileRdr::Read` are treated as exact, as on LP64 platforms.
- `Gets` returns the bytes of the line rather than filling a caller's `char` buffer with a terminating NUL.
- Handle.FileRdr.MoveAssign: requires that two distinct handles do not hold the same reader. The source ensures this by deleting the copy operations, but `FileRdr(FileReader*)` and `Reader()` can break it; the model does not track ownership across all handles.
- Deleting a reader only sets the ghost flag `deleted`; releasing the reader's file handle or buffer is not modelled.
