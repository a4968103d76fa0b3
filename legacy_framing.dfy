/**
 * The serial read loop of kaco2pvo.py: characters from the inverter accumulate in a buffer,
 * and whenever it holds a carriage return every complete record is cut off and handed on,
 * leaving the unterminated tail in the buffer.
 */
module LegacyFraming {
  import opened Text

  /** The inverter ends each record with a carriage return. */
  const RecordEnd: char := '\r'

  /** `myBuffer`. */
  class SerialBuffer {
    var buffer: string

    /** Between reads the buffer holds only the tail of an unfinished record. */
    ghost predicate Valid()
      reads this
    {
      RecordEnd !in buffer
    }

    /** `myBuffer = ''`. */
    constructor()
      ensures Valid() && buffer == ""
    {
      buffer := "";
    }

    /**
     * One pass of the loop: `myBuffer += chunk`, and if it holds a '\r', split it, keep the
     * last piece and return the others in order. Nothing is lost or invented: the records
     * followed by the new buffer, joined with '\r', are the old buffer followed by the chunk.
     */
    method Receive(chunk: string) returns (records: seq<string>)
      requires Valid()
      modifies this
      ensures Valid()
      ensures Join(records + [buffer], RecordEnd) == old(buffer) + chunk
      ensures forall i :: 0 <= i < |records| ==> RecordEnd !in records[i]
      ensures records == [] <==> RecordEnd !in chunk
      ensures records == [] ==> buffer == old(buffer) + chunk
    {
      var received := buffer + chunk;
      assert RecordEnd in received <==> RecordEnd in chunk by {
        assert forall i :: 0 <= i < |chunk| ==> received[|buffer| + i] == chunk[i];
      }
      if RecordEnd in received {
        var readings := Split(received, RecordEnd);
        CutRecords(received, RecordEnd);
        records := readings[..|readings| - 1];
        buffer := readings[|readings| - 1];
      } else {
        records := [];
        buffer := received;
        assert records + [buffer] == [buffer];
      }
    }
  }

  /** Cutting at the last separator: the parts before it, rejoined with the last part, give `s`. */
  lemma CutRecords(s: string, sep: char)
    requires sep in s
    ensures var parts := Split(s, sep);
      && |parts| >= 2
      && Join(parts[..|parts| - 1] + [parts[|parts| - 1]], sep) == s
  {
    SplitCuts(s, sep);
    JoinSplit(s, sep);
    JoinLast(Split(s, sep), sep);
  }

  lemma JoinLast(parts: seq<string>, sep: char)
    requires |parts| >= 1
    ensures Join(parts[..|parts| - 1] + [parts[|parts| - 1]], sep) == Join(parts, sep)
  {
    assert parts[..|parts| - 1] + [parts[|parts| - 1]] == parts;
  }

  /** A string holding the separator splits into at least two parts. */
  lemma SplitCuts(s: string, sep: char)
    requires sep in s
    ensures |Split(s, sep)| >= 2
  {
    var k := IndexOf(s, sep);
    assert k < |s|;
    var rest := Split(s[k + 1..], sep);
    assert Split(s, sep) == [s[..k]] + rest;
  }
}
