/** The two ends of a connection as the chunk layer sees them (chunk_streamer_reader.go,
    chunk_streamer_writer.go), and the byte order helpers that fill buffers in place. */
module StreamIO {
  import opened Bytes

  /** What a connection still has to give, and how much was taken from it: in all, and since
      the last reset. Both counters wrap around 32 bits; `total` and `fragment` do not. */
  class Source {
    var input: seq<byte>
    var totalReadBytes: uint32
    var fragmentReadBytes: uint32
    ghost var total: nat
    ghost var fragment: nat

    ghost predicate Valid()
      reads this
    {
      totalReadBytes == Wrap32(total) && fragmentReadBytes == Wrap32(fragment)
    }

    constructor (input: seq<byte>)
      ensures Valid() && this.input == input && total == 0 && fragment == 0
    {
      this.input := input;
      totalReadBytes, fragmentReadBytes := 0, 0;
      total, fragment := 0, 0;
    }

    /** The first `k` bytes were taken, and no others. */
    twostate predicate Took(k: nat)
      reads this
    {
      && k <= |old(input)| && input == old(input)[k..]
      && total == old(total) + k && fragment == old(fragment) + k && Valid()
    }

    /** Fills `buf[from..to]` as far as the connection has bytes and `offered` allows. */
    method Read(buf: array<byte>, from: nat, to: nat, offered: nat) returns (n: nat)
      requires Valid() && from <= to <= buf.Length
      modifies this, buf
      ensures n == Min(offered, Min(to - from, |old(input)|)) && Took(n)
      ensures forall i :: from <= i < from + n ==> buf[i] == old(input)[i - from]
      ensures ElsewhereUnchanged(buf, from, n)
    {
      n := Min(offered, Min(to - from, |input|));
      forall i | 0 <= i < n {
        buf[from + i] := input[i];
      }
      input := input[n..];
      WrapAdds(total, n);
      WrapAdds(fragment, n);
      hide Wrap32;
      totalReadBytes := Wrap32(totalReadBytes + n);
      fragmentReadBytes := Wrap32(fragmentReadBytes + n);
      total, fragment := total + n, fragment + n;
    }

    /** At least `n` bytes, and up to `more` beyond them if the buffer has room. */
    method ReadAtLeast(buf: array<byte>, from: nat, to: nat, n: nat, more: nat) returns (ok: bool)
      requires Valid() && from + n <= to <= buf.Length
      modifies this, buf
      ensures ok <==> n <= |old(input)|
      ensures var k := Min(n + more, Min(to - from, |old(input)|));
              && Took(k)
              && (forall i :: from <= i < from + k ==> buf[i] == old(input)[i - from])
              && ElsewhereUnchanged(buf, from, k)
    {
      var got := Read(buf, from, to, n + more);
      ok := got >= n;
    }

    method ResetFragmentReadBytes()
      requires Valid()
      modifies this`fragmentReadBytes, this`fragment
      ensures Valid() && fragment == 0 && fragmentReadBytes == 0
    {
      fragmentReadBytes := 0;
      fragment := 0;
    }
  }

  /** What was written to a connection or buffer. */
  class Sink {
    var output: seq<byte>

    constructor ()
      ensures output == []
    {
      output := [];
    }

    method Write(bytes: seq<byte>)
      modifies this
      ensures output == old(output) + bytes
    {
      output := output + bytes;
    }
  }

  /** Everything in `buf` but the `n` bytes at `at` is as it was. */
  twostate predicate ElsewhereUnchanged(buf: array<byte>, at: nat, n: nat)
    reads buf
  {
    forall i :: 0 <= i < buf.Length && !(at <= i < at + n) ==> buf[i] == old(buf[i])
  }

  method PutBigEndian32(buf: array<byte>, at: nat, v: uint32)
    requires at + 4 <= buf.Length
    modifies buf
    ensures buf[at..at + 4] == BE32(v) && ElsewhereUnchanged(buf, at, 4)
  {
    buf[at] := v / 0x100_0000;
    buf[at + 1] := v / 0x1_0000 % 0x100;
    buf[at + 2] := v / 0x100 % 0x100;
    buf[at + 3] := v % 0x100;
  }

  method PutLittleEndian32(buf: array<byte>, at: nat, v: uint32)
    requires at + 4 <= buf.Length
    modifies buf
    ensures buf[at..at + 4] == LE32(v) && ElsewhereUnchanged(buf, at, 4)
  {
    buf[at] := v % 0x100;
    buf[at + 1] := v / 0x100 % 0x100;
    buf[at + 2] := v / 0x1_0000 % 0x100;
    buf[at + 3] := v / 0x100_0000;
  }

  /** The low 24 bits, by way of a 32-bit scratch buffer. */
  method PutBigEndian24(buf: array<byte>, at: nat, v: uint32, cache: array<byte>)
    requires at + 3 <= buf.Length && cache.Length == 4 && cache != buf
    modifies buf, cache
    ensures buf[at..at + 3] == BE24(v) && ElsewhereUnchanged(buf, at, 3)
  {
    PutBigEndian32(cache, 0, v);
    assert cache[..] == BE32(v);
    hide BE32;
    buf[at], buf[at + 1], buf[at + 2] := cache[1], cache[2], cache[3];
    assert buf[at..at + 3] == cache[1..];
  }

  method PutBigEndian16(buf: array<byte>, at: nat, v: int)
    requires at + 2 <= buf.Length && 0 <= v < 0x1_0000
    modifies buf
    ensures buf[at..at + 2] == BE16(v) && ElsewhereUnchanged(buf, at, 2)
  {
    buf[at], buf[at + 1] := v / 0x100, v % 0x100;
  }
}
