/**
 * A seekable in-memory stream of characters: the request body after `EnableBuffering`,
 * the pooled `RecyclableMemoryStream` buffers, and the response body stream.
 * Text decoding by `StreamReader` is the identity here, so a reader's operations are
 * stream operations.
 */
module Streams {

  function Min(a: int, b: int): int {
    if a <= b then a else b
  }

  /** The contents after writing `s` at offset `at`: the bytes before `at` are kept, `s`
      replaces what lies under it, and the stream grows only if `s` runs past the end. */
  function Overwrite(data: seq<char>, at: nat, s: seq<char>): (r: seq<char>)
    requires at <= |data|
    ensures |r| == if at + |s| <= |data| then |data| else at + |s|
    ensures r[..at] == data[..at] && r[at..at + |s|] == s
    ensures forall i :: at + |s| <= i < |data| ==> r[i] == data[i]
  {
    data[..at] + s + (if at + |s| <= |data| then data[at + |s|..] else [])
  }

  /** Writing at the end of a stream appends; in particular, writing into an empty stream
      leaves exactly what was written. */
  lemma OverwriteAtEnd(data: seq<char>, s: seq<char>)
    ensures Overwrite(data, |data|, s) == data + s
    ensures Overwrite([], 0, s) == s
  {
    var r := Overwrite(data, |data|, s);
    assert r == r[..|data|] + r[|data|..];
    assert r[|data|..] == s;
  }

  class Stream {
    var data: seq<char>
    var position: nat

    ghost predicate Valid()
      reads this
    {
      position <= |data|
    }

    /** A stream over `content`, positioned at its start. */
    constructor (content: seq<char>)
      ensures Valid() && data == content && position == 0
    {
      data := content;
      position := 0;
    }

    /** `Seek(0, SeekOrigin.Begin)`, also `Position = 0`. */
    method SeekBegin()
      modifies this`position
      ensures position == 0
    {
      position := 0;
    }

    /** `Write`: writes at the current position and moves past what was written. */
    method Write(s: seq<char>)
      requires Valid()
      modifies this
      ensures Valid()
      ensures data == Overwrite(old(data), old(position), s)
      ensures position == old(position) + |s|
    {
      data := Overwrite(data, position, s);
      position := position + |s|;
    }

    /** `StreamReader.ReadToEnd`: everything from the current position on. */
    method ReadToEnd() returns (s: seq<char>)
      requires Valid()
      modifies this`position
      ensures Valid()
      ensures s == old(data[position..]) && position == |data|
    {
      s := data[position..];
      position := |data|;
    }

    /** `StreamReader.ReadBlock(buffer, index, count)`: fills `buffer[index..]` with up to
        `count` characters, fewer only at the end of the stream, and returns how many. */
    method ReadBlock(buffer: array<char>, index: nat, count: nat) returns (n: nat)
      requires Valid() && index + count <= buffer.Length
      modifies this`position, buffer
      ensures Valid()
      ensures n == Min(count, |data| - old(position))
      ensures position == old(position) + n
      ensures buffer[index..index + n] == data[old(position)..position]
    {
      n := Min(count, |data| - position);
      forall k | 0 <= k < n {
        buffer[index + k] := data[position + k];
      }
      position := position + n;
    }

    /** `CopyTo(destination)`: writes the rest of this stream into `destination` at its
        position, leaving this stream at its end. */
    method CopyTo(destination: Stream)
      requires Valid() && destination.Valid() && destination != this
      modifies this`position, destination
      ensures Valid() && destination.Valid()
      ensures destination.data == Overwrite(old(destination.data), old(destination.position), old(data[position..]))
      ensures destination.position == old(destination.position) + old(|data| - position)
      ensures position == |data|
    {
      var rest := ReadToEnd();
      destination.Write(rest);
    }
  }
}
