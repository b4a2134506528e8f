/** Bytes, 32-bit integers, the 4-byte big-endian length prefix and the
    two byte streams the pairing codec reads from and writes to. */
module ByteStreams {

  /** A Java byte, taken as unsigned. */
  newtype byte = b: int | 0 <= b < 256

  /** A Java `int`. */
  type Int32 = x: int | -0x8000_0000 <= x < 0x8000_0000

  const TWO_TO_32: int := 0x1_0000_0000

  /** The value of four bytes read as an unsigned big-endian number. */
  function DecodeBigEndian32(b: seq<byte>): (n: nat)
    requires |b| == 4
    ensures n < TWO_TO_32
  {
    ((b[0] as int * 0x100 + b[1] as int) * 0x100 + b[2] as int) * 0x100 + b[3] as int
  }

  /** The four big-endian bytes of a non-negative number below 2^32. */
  function EncodeBigEndian32(n: nat): (b: seq<byte>)
    requires n < TWO_TO_32
    ensures |b| == 4
    ensures b[0] as int == n / 0x100_0000
    ensures b[3] as int == n % 0x100
  {
    [(n / 0x100_0000) as byte, (n / 0x1_0000 % 0x100) as byte,
     (n / 0x100 % 0x100) as byte, (n % 0x100) as byte]
  }

  /** Decoding recovers every encoded length. */
  lemma DecodeEncodeBigEndian32(n: nat)
    requires n < TWO_TO_32
    ensures DecodeBigEndian32(EncodeBigEndian32(n)) == n
  {
    var b := EncodeBigEndian32(n);
    var hi := n / 0x100;
    assert n == hi * 0x100 + b[3] as int;
    var mid := hi / 0x100;
    assert hi == mid * 0x100 + b[2] as int;
    assert mid == (mid / 0x100) * 0x100 + b[1] as int;
    assert mid / 0x100 == b[0] as int;
  }

  /** Encoding recovers every 4-byte prefix, so the two are inverse. */
  lemma EncodeDecodeBigEndian32(b: seq<byte>)
    requires |b| == 4
    ensures EncodeBigEndian32(DecodeBigEndian32(b)) == b
  {
    var n := DecodeBigEndian32(b);
    var e := EncodeBigEndian32(n);
    var mid := b[0] as int * 0x100 + b[1] as int;
    var hi := mid * 0x100 + b[2] as int;
    assert n == hi * 0x100 + b[3] as int;
    assert n / 0x100 == hi && n % 0x100 == b[3] as int;
    assert hi / 0x100 == mid && hi % 0x100 == b[2] as int;
    assert mid / 0x100 == b[0] as int && mid % 0x100 == b[1] as int;
    assert n / 0x1_0000 == hi / 0x100;
    assert n / 0x100_0000 == mid / 0x100;
    assert e[0] == b[0] && e[1] == b[1] && e[2] == b[2] && e[3] == b[3];
  }

  /** The bytes a sequence of read chunks delivers, in order. */
  function Flatten(chunks: seq<seq<byte>>): (s: seq<byte>)
    ensures chunks != [] ==> s == chunks[0] + Flatten(chunks[1..])
  {
    if chunks == [] then [] else chunks[0] + Flatten(chunks[1..])
  }

  /** An input stream, given by the chunks its successive `read` calls
      deliver, one chunk (or the part of one that fits) per call. After the
      last chunk the stream is at end-of-stream. An empty chunk is a read that
      returns zero bytes. */
  class InputStream {
    var chunks: seq<seq<byte>>

    constructor (chunks: seq<seq<byte>>)
      ensures this.chunks == chunks
    {
      this.chunks := chunks;
    }

    /** The bytes still to be delivered. */
    function Bytes(): seq<byte>
      reads this
    {
      Flatten(chunks)
    }

    /** A measure that every non-empty read request decreases. */
    function Size(): nat
      reads this
    {
      |Bytes()| + |chunks|
    }

    /** `InputStream.read(buf, off, len)`: copies at most `len` bytes of the
        next chunk into `buf[off..]` and returns how many, or -1 at
        end-of-stream. A request for zero bytes returns 0. */
    method Read(buf: array<byte>, off: nat, len: nat) returns (n: int)
      requires off + len <= buf.Length
      modifies this, buf
      ensures n >= -1
      ensures len == 0 ==> n == 0 && chunks == old(chunks)
      ensures n == -1 <==> len > 0 && old(chunks) == []
      ensures n == -1 ==> old(Bytes()) == [] && chunks == [] && buf[..] == old(buf[..])
      ensures n >= 0 ==> n <= len && n <= |old(Bytes())|
      ensures n >= 0 ==> Bytes() == old(Bytes())[n..]
      ensures n >= 0 ==> buf[off..off + n] == old(Bytes())[..n]
      ensures n >= 0 ==> buf[..off] == old(buf[..off]) && buf[off + n..] == old(buf[off + n..])
      ensures len > 0 && n >= 0 ==> Size() < old(Size())
    {
      if len == 0 {
        return 0;
      }
      if chunks == [] {
        return -1;
      }
      var c := chunks[0];
      n := if |c| < len then |c| else len;
      forall i | off <= i < off + n {
        buf[i] := c[i - off];
      }
      var rest := chunks[1..];
      chunks := if n == |c| then rest else [c[n..]] + rest;
      assert Flatten([c[n..]] + rest) == c[n..] + Flatten(rest);
    }
  }

  /** An output stream; `written` is everything written to it so far. */
  class OutputStream {
    var written: seq<byte>

    constructor ()
      ensures written == []
    {
      written := [];
    }

    /** `OutputStream.write(bytes)`: appends all of `bytes`. */
    method Write(bytes: seq<byte>)
      modifies this
      ensures written == old(written) + bytes
    {
      written := written + bytes;
    }
  }
}
