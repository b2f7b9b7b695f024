/** The resumable connection of the manual server (`Connection` in `src/run.rs`). */
module ManualConnection {
  import opened Common
  import opened FakeIo
  import opened Echo

  datatype ConnectionState = ReceivingRequest | SendingResponse

  predicate Wanted(interest: bv8) {
    interest & READABLE != 0 || interest & WRITABLE != 0
  }

  class Connection {
    var stream: FakeStream
    var canRead: bool
    var canWrite: bool
    var state: ConnectionState
    const buf: array<byte>
    var bufLen: nat
    var sent: nat
    ghost var written: seq<byte>

    ghost function View(): Echo
      requires bufLen <= buf.Length
      reads this, buf
    {
      Echo(buf[..bufLen], state.SendingResponse?, sent, written)
    }

    /** Not yet done, inside its buffer, and with room for a request while it waits for one. */
    ghost predicate Valid()
      reads this, buf
    {
      && bufLen <= buf.Length && Sound(View(), buf.Length) && !Done(View())
      && (state.ReceivingRequest? ==> bufLen + |REQUEST| <= buf.Length)
    }

    constructor (stream: FakeStream, size: nat)
      requires size >= |REQUEST|
      ensures Valid() && fresh(buf) && buf.Length == size
      ensures this.stream == stream && View() == START && canRead && canWrite
    {
      this.stream := stream;
      canRead, canWrite := true, true;
      state := ReceivingRequest;
      buf := new byte[size](_ => 0);
      bufLen, sent, written := 0, 0, [];
    }

    /** Runs until a call would block, or until the response is sent. */
    method Process(stats: Stats) returns (done: bool)
      requires Valid()
      modifies this, buf, stats
      ensures bufLen <= buf.Length
      ensures (View(), stream, stats.Kept()) == Outcome(old(View()), old(stream), old(stats.Kept()))
      ensures done <==> Done(View())
      ensures !done ==> Valid()
      ensures canRead == (old(canRead) && (done || state.SendingResponse?))
      ensures canWrite == (old(canWrite) && (done || state.ReceivingRequest?))
    {
      hide Sound, Step, Outcome, Unsent;
      while true
        invariant Valid()
        invariant Outcome(View(), stream, stats.Kept()) == Outcome(old(View()), old(stream), old(stats.Kept()))
        invariant canRead == old(canRead) && canWrite == old(canWrite)
        decreases if state.SendingResponse? then 0 else 1
      {
        match state
        case ReceivingRequest =>
          var blocked := Receive(stats);
          if blocked {
            return false;
          }
        case SendingResponse =>
          var blocked := Send(stats);
          if blocked {
            return false;
          }
          if sent >= bufLen {
            return true;
          }
      }
    }

    /** Notes what a poll event allows; says whether the connection is to be processed. */
    method Mark(interest: bv8) returns (doProcess: bool)
      requires Valid()
      modifies this
      ensures Valid() && View() == old(View()) && stream == old(stream)
      ensures canRead == (old(canRead) || interest & READABLE != 0)
      ensures canWrite == (old(canWrite) || interest & WRITABLE != 0)
      ensures doProcess <==> Wanted(interest)
    {
      doProcess := false;
      if interest & READABLE != 0 {
        canRead := true;
        doProcess := true;
      }
      if interest & WRITABLE != 0 {
        canWrite := true;
        doProcess := true;
      }
    }

    /** The receiving arm: one read, and the switch to sending once a newline has arrived. */
    method Receive(stats: Stats) returns (blocked: bool)
      requires Valid() && state.ReceivingRequest?
      modifies this, buf, stats
      ensures Valid() && stats.Kept() == Note(old(stats.Kept()), ReadCall(old(stream).id, blocked))
      ensures stream == old(stream).(calls := old(stream.calls) + 1)
      ensures blocked <==> Blocks(old(stream.calls) + 1)
      ensures View() == if blocked then old(View()) else Step(old(View()), Got(REQUEST))
      ensures !blocked ==> state.SendingResponse?
      ensures Outcome(old(View()), old(stream), old(stats.Kept())) ==
        if blocked then (View(), stream, stats.Kept()) else Outcome(View(), stream, stats.Kept())
      ensures canRead == (old(canRead) && !blocked) && canWrite == old(canWrite)
    {
      ghost var c := View();
      OutcomeRead(c, stream, stats.Kept());
      hide Outcome;
      var r;
      stream, r := stream.Read(stats, buf.Length - bufLen);
      if r.WouldBlock? {
        canRead := false;
        return true;
      }
      Fill(r.value);
      StepSound(c, Got(r.value), buf.Length);
      RequestEndsInput(c.received);
      if NEWLINE in buf[..bufLen] {
        state := SendingResponse;
      }
      return false;
    }

    /** The sending arm: one write, which a fake stream takes whole. */
    method Send(stats: Stats) returns (blocked: bool)
      requires Valid() && state.SendingResponse?
      modifies this, stats
      ensures bufLen <= buf.Length
      ensures stats.Kept() == Note(old(stats.Kept()), WriteCall(old(stream).id, Unsent(old(View())), blocked))
      ensures stream == old(stream).(calls := old(stream.calls) + 1)
      ensures blocked <==> Blocks(old(stream.calls) + 1)
      ensures View() == if blocked then old(View()) else Step(old(View()), Took(|old(View()).received| - old(sent)))
      ensures if blocked then Valid() else Done(View())
      ensures Outcome(old(View()), old(stream), old(stats.Kept())) == (View(), stream, stats.Kept())
      ensures canWrite == (old(canWrite) && !blocked) && canRead == old(canRead)
    {
      ghost var c := View();
      OutcomeWrite(c, stream, stats.Kept());
      hide Outcome;
      var r;
      stream, r := stream.Write(stats, buf[sent..bufLen]);
      if r.WouldBlock? {
        canWrite := false;
        return true;
      }
      written := written + buf[sent..sent + r.value];
      sent := sent + r.value;
      assert c.received[c.sent..c.sent + r.value] == buf[c.sent..c.sent + r.value];
      assert View() == Step(c, Took(r.value));
      return false;
    }

    /** The read's copy into the unused part of the buffer. */
    method Fill(data: seq<byte>)
      requires bufLen + |data| <= buf.Length
      modifies this`bufLen, buf
      ensures bufLen == old(bufLen) + |data| && buf[..bufLen] == old(buf[..bufLen]) + data
    {
      for i := 0 to |data|
        invariant bufLen == old(bufLen)
        invariant buf[..bufLen] == old(buf[..bufLen])
        invariant buf[bufLen..bufLen + i] == data[..i]
      {
        buf[bufLen + i] := data[i];
        assert data[..i + 1] == data[..i] + [data[i]];
      }
      assert buf[..bufLen + |data|] == buf[..bufLen] + buf[bufLen..bufLen + |data|];
      bufLen := bufLen + |data|;
    }
  }
}
