/**
  * The byte stream under a connection (`Io` in minimq/src/mqtt_client/mod.rs).
  *
  * Every call may transfer any allowed amount, fail, or be cancelled while pending. As the trait
  * demands, a cancelled or failed call transfers nothing.
  */
module Transport {
  import opened Bytes

  datatype WriteOutcome = Wrote(count: nat) | WriteFailed | WriteCancelled
  datatype FlushOutcome = Flushed | FlushFailed | FlushCancelled
  datatype ReadOutcome = Data(bytes: seq<Byte>) | ReadFailed | ReadCancelled

  class Io {
    ghost var outgoing: seq<Byte>
    ghost var incoming: seq<Byte>

    constructor ()
      ensures outgoing == [] && incoming == []
    {
      outgoing, incoming := [], [];
    }

    method Write(data: seq<Byte>) returns (r: WriteOutcome)
      modifies this`outgoing
      ensures r.Wrote? ==> r.count <= |data| && outgoing == old(outgoing) + data[..r.count]
      ensures !r.Wrote? ==> outgoing == old(outgoing)
    {
      var count: int, pending: bool := *, *;
      if 0 <= count <= |data| {
        outgoing := outgoing + data[..count];
        return Wrote(count);
      }
      return if pending then WriteCancelled else WriteFailed;
    }

    method Flush() returns (r: FlushOutcome)
    {
      r := *;
    }

    /** A count of zero reports the end of the stream. */
    method Read(window: nat) returns (r: ReadOutcome)
      requires window > 0
      modifies this`incoming
      ensures r.Data? ==> |r.bytes| <= window && incoming == old(incoming) + r.bytes
      ensures !r.Data? ==> incoming == old(incoming)
    {
      r := *;
      if r.Data? {
        r := Data(r.bytes[..Min(|r.bytes|, window)]);
        incoming := incoming + r.bytes;
      }
    }
  }
}
