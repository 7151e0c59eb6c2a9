/**
 * The two streams the class lookup copies an entry through: an input
 * stream over the entry's bytes, read one byte at a time until it answers
 * -1, and a growable byte buffer written one byte at a time.
 */
module Streams {
  import opened FileSystem

  /** An input stream over `content`, positioned at `pos`. */
  class EntryInputStream {
    const content: seq<byte>
    var pos: nat

    ghost predicate Valid()
      reads this
    {
      pos <= |content|
    }

    constructor (content: seq<byte>)
      ensures Valid() && this.content == content && pos == 0
    {
      this.content := content;
      pos := 0;
    }

    /** The next byte as 0..255, or -1 at the end of the stream. */
    method Read() returns (ch: int)
      requires Valid()
      modifies this`pos
      ensures Valid()
      ensures old(pos) < |content| ==> ch == content[old(pos)] as int && pos == old(pos) + 1
      ensures old(pos) == |content| ==> ch == -1 && pos == old(pos)
    {
      if pos < |content| {
        ch := content[pos] as int;
        pos := pos + 1;
      } else {
        ch := -1;
      }
    }
  }

  /** A byte buffer that grows as it is written. */
  class ByteArrayOutputStream {
    var buf: seq<byte>

    constructor ()
      ensures buf == []
    {
      buf := [];
    }

    /** Appends the low eight bits of `b`. */
    method Write(b: int)
      modifies this
      ensures buf == old(buf) + [(b % 256) as byte]
    {
      buf := buf + [(b % 256) as byte];
    }
  }

  /**
   * Reads an entry to its end through the two streams: the result is every
   * byte of the entry, in order, with nothing added or lost.
   */
  method ReadEntryBytes(content: seq<byte>) returns (data: seq<byte>)
    ensures data == content
  {
    var input := new EntryInputStream(content);
    var output := new ByteArrayOutputStream();
    while true
      invariant input.Valid() && input.content == content
      invariant output.buf == content[..input.pos]
      decreases |content| - input.pos
    {
      var ch := input.Read();
      if ch == -1 {
        break;
      }
      output.Write(ch);
    }
    data := output.buf;
  }
}
