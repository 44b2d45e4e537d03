/** The two ends of a TCP connection as objects that change step by step. */
module TcpTransport {
  import opened Bytes
  import opened Streaming
  import opened Framing

  /** Reassembles records into a byte stream. It is woken up when bytes arrive, and does nothing until at least as many
      are there as it asked for. */
  class TlsReaderByteFlow {
    var input: seq<byte>
    var output: seq<byte>
    var needSize: nat
    var stopped: bool

    /** Bytes are left waiting only when they cannot make up a record. */
    ghost predicate Valid()
      reads this
    {
      !stopped && |input| < needSize ==> RecordStep(input).More? && needSize <= RecordStep(input).need
    }

    constructor ()
      ensures Valid() && input == [] && output == [] && !stopped
    {
      input, output, needSize, stopped := [], [], 0, false;
    }

    /** Moves one record to the output. */
    method Loop() returns (again: bool)
      modifies this
      ensures match RecordStep(old(input)) {
                case More(need) =>
                  && !again && input == old(input) && output == old(output)
                  && needSize == need && stopped == old(stopped)
                case Bad =>
                  && !again && input == old(input) && output == old(output)
                  && needSize == old(needSize) && stopped
                case Item(body, used) =>
                  && again && input == old(input)[used..] && output == old(output) + body
                  && needSize == old(needSize) && stopped == old(stopped)
              }
    {
      if |input| < 5 {
        needSize := 5;
        return false;
      }
      var rest := input[5..];
      var buf := input[..5];
      assert buf[..3] == input[..3];
      if buf[..3] != RECORD_START {
        stopped := true;
        return false;
      }
      var len: int := BE(buf[3], buf[4]);
      if |rest| < len {
        needSize := 5 + len;
        return false;
      }
      assert rest[..len] == input[5..5 + len] && rest[len..] == input[5 + len..];
      output := output + rest[..len];
      input := rest[len..];
      again := true;
    }

    /** Works through everything that has arrived. */
    method Wakeup()
      requires Valid()
      modifies this
      ensures Valid() && Stable(RecordStep)
      ensures if old(stopped) then input == old(input) && output == old(output) && stopped
              else
                var got := Drain(RecordStep, old(input));
                input == got.rest && output == old(output) + Join(got.items) && stopped == got.failed
    {
      hide Drain, RecordStep;
      RecordStable();
      if stopped { return; }
      ghost var done: seq<seq<byte>> := [];
      ghost var all := Drain(RecordStep, input);
      assert [] + all.items == all.items;
      while !stopped && needSize <= |input|
        invariant Valid()
        invariant output == old(output) + Join(done)
        invariant all == After(done, Drain(RecordStep, input))
        invariant stopped ==> RecordStep(input).Bad?
        decreases |input|, |input| + 1 - needSize
      {
        ghost var was := input;
        assert StableAt(RecordStep, was, []);
        ghost var step := RecordStep(was);
        needSize := 0;
        var again := Loop();
        if !again {
          if needSize <= |input| { needSize := |input| + 1; }
        } else {
          JoinLast(done, step.item);
          assert old(output) + Join(done) + step.item == old(output) + (Join(done) + step.item);
          DrainItem(RecordStep, was, done);
          done := done + [step.item];
        }
      }
      DrainEnd(RecordStep, input, done);
    }

    /** Bytes arrive. Together with `Drain` this is exactly what feeding a piece to the record parser means. */
    method Arrive(chunk: seq<byte>, ghost items: seq<seq<byte>>)
      requires Valid() && Stable(RecordStep) && output == Join(items)
      requires !stopped ==> RecordStep(input).More?
      modifies this
      ensures Valid() && (!stopped ==> RecordStep(input).More?)
      ensures var got := Feed(RecordStep, Progress(items, old(input), old(stopped)), chunk);
              input == got.rest && output == Join(got.items) && stopped == got.failed
    {
      ghost var was := input;
      assert StableAt(RecordStep, was, chunk);
      input := input + chunk;
      Wakeup();
      DrainStops(was + chunk);
      if !old(stopped) {
        JoinBoth(items, Drain(RecordStep, was + chunk).items);
      }
    }
  }

  lemma {:induction false} DrainStops(s: seq<byte>)
    requires Stable(RecordStep)
    ensures var got := Drain(RecordStep, s);
            if got.failed then RecordStep(got.rest).Bad? else RecordStep(got.rest).More?
    decreases |s|
  {
    hide RecordStep;
    assert StableAt(RecordStep, s, []);
    if RecordStep(s).Item? { DrainStops(s[RecordStep(s).used..]); }
  }

  lemma {:induction false} JoinBoth<T>(a: seq<seq<T>>, b: seq<seq<T>>)
    ensures Join(a + b) == Join(a) + Join(b)
  {
    if a == [] {
      assert a + b == b;
    } else {
      JoinBoth(a[1..], b);
      assert (a + b)[1..] == a[1..] + b;
      assert a[0] + (Join(a[1..]) + Join(b)) == a[0] + Join(a[1..]) + Join(b);
    }
  }

  /** Takes frames off a stream. */
  class IntermediateReader {
    var stream: seq<byte>

    constructor ()
      ensures stream == []
    {
      stream := [];
    }

    /** Returns 0 and a frame, or the number of bytes to wait for. */
    method ReadFromStream() returns (wait: nat, frame: Frame)
      modifies this
      ensures match FrameStep(old(stream)) {
                case More(need) => wait == need > 0 && stream == old(stream)
                case Item(f, used) => wait == 0 && frame == f && used <= |old(stream)| && stream == old(stream)[used..]
                case Bad => false
              }
    {
      hide FromLE;
      frame := Message([]);
      if |stream| < 4 { return 4, frame; }
      var dataSize := FromLE(stream[..4]);
      if dataSize >= 0x8000_0000 {
        stream := stream[4..];
        return 0, QuickAck(dataSize);
      }
      var totalSize := dataSize + 4;
      if |stream| < totalSize { return totalSize, frame; }
      frame := Message(stream[4..][..dataSize]);
      assert stream[4..][..dataSize] == stream[4..totalSize];
      stream := stream[4..][dataSize..];
      assert stream == old(stream)[totalSize..];
      wait := 0;
    }

    /** Reads frames until there are too few bytes for another one. */
    method ReadAll() returns (frames: seq<Frame>)
      modifies this
      ensures Stable(FrameStep) && Drain(FrameStep, old(stream)) == Progress(frames, stream, false)
    {
      hide Drain, FrameStep;
      FrameStable();
      frames := [];
      var wait := 0;
      ghost var all := Drain(FrameStep, stream);
      assert [] + all.items == all.items;
      while wait == 0
        invariant wait == 0 || FrameStep(stream).More?
        invariant all == After(frames, Drain(FrameStep, stream))
        decreases wait == 0, |stream|
      {
        ghost var was := stream;
        var frame;
        wait, frame := ReadFromStream();
        if wait == 0 {
          DrainItem(FrameStep, was, frames);
          frames := frames + [frame];
        }
      }
      DrainEnd(FrameStep, stream, frames);
    }
  }

  /** The writing side of an obfuscated connection. */
  class ObfuscatedTransport {
    const emulateTls: bool
    const keyStream: nat -> byte
    var header: seq<byte>
    var isFirstTlsPacket: bool
    var position: nat
    var output: seq<byte>

    function View(): Wire
      reads this
    {
      Wire(header, isFirstTlsPacket, position, output)
    }

    /** The key stream has been used for the 64 bytes of the connection header. */
    constructor (emulateTls: bool, keyStream: nat -> byte, header: seq<byte>)
      requires |header| == 64
      ensures this.emulateTls == emulateTls && this.keyStream == keyStream && View() == Wire(header, true, 64, [])
    {
      this.emulateTls, this.keyStream := emulateTls, keyStream;
      this.header, isFirstTlsPacket, position, output := header, true, 64, [];
    }

    method WriteRecord(builder: seq<byte>)
      requires |header| + |builder| <= MAX_TLS_PACKET_LENGTH
      modifies `header, `isFirstTlsPacket, `output
      ensures View() == PutRecord(old(View()), builder)
    {
      var record := builder;
      if header != [] {
        record := header + record;
        header := [];
      }
      assert record == old(header) + builder;
      var size := |record|;
      record := RECORD_START + [size / 256 % 256, size % 256] + record;
      if isFirstTlsPacket {
        isFirstTlsPacket := false;
        record := FIRST_PREFIX + record;
      }
      output := output + record;
      assert old(output) + (FIRST_PREFIX + RecordOf(old(header) + builder))
             == old(output) + FIRST_PREFIX + RecordOf(old(header) + builder);
      assert old(output) + [] == old(output);
    }

    method WriteTls(message: seq<byte>)
      requires |header| <= MAX_TLS_PACKET_LENGTH
      modifies `header, `isFirstTlsPacket, `output
      ensures View() == PutTls(old(View()), message)
    {
      hide PutRecord;
      if |message| + |header| > MAX_TLS_PACKET_LENGTH {
        var slice := message;
        while slice != []
          invariant |header| <= MAX_TLS_PACKET_LENGTH
          invariant PutPieces(old(View()), message) == PutPieces(View(), slice)
          decreases |slice|, |header|
        {
          var n := MAX_TLS_PACKET_LENGTH - |header|;
          var buf := if |slice| < n then slice else slice[..n];
          slice := slice[|buf|..];
          PutRecordClears(View(), buf);
          WriteRecord(buf);
          assert header == View().header;
        }
        return;
      }
      WriteRecord(message);
    }

    method WriteMain(message: seq<byte>)
      modifies `header, `output
      ensures View() == PutPlain(old(View()), message)
    {
      var builder := message;
      if header != [] {
        builder := header + builder;
        header := [];
      }
      output := output + builder;
      assert old(output) + (old(header) + message) == old(output) + old(header) + message;
      assert old(header) == [] ==> old(header) + message == message;
    }

    /** Puts the length in front and the padding behind. */
    method PrepareInPlace(o: Outgoing) returns (message: seq<byte>)
      requires Writable(o)
      ensures message == FrameOf(o)
    {
      var size := |o.packet|;
      if o.quickAck { size := size + 0x8000_0000; }
      message := o.packet + o.pad;
      message := LE(size + |o.pad|, 4) + message;
      assert LE(size + |o.pad|, 4) + (o.packet + o.pad) == LE(size + |o.pad|, 4) + o.packet + o.pad;
    }

    method Write(o: Outgoing)
      requires Writable(o) && |header| <= MAX_TLS_PACKET_LENGTH
      modifies this
      ensures View() == Send(old(View()), emulateTls, keyStream, o)
    {
      hide FrameOf, PutTls, Ctr;
      var message := PrepareInPlace(o);
      message := Ctr(keyStream, position, message);
      position := position + |message|;
      if emulateTls {
        WriteTls(message);
      } else {
        WriteMain(message);
      }
    }
  }
}
