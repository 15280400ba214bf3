// The three chunked writers. Each hands a document to a byte channel piece by piece and, when a
// piece fails, has to say whether any byte may have reached the printer.
module Transport {
  import opened Domain
  import opened Transactions

  datatype WriteOutcome = NotSent | AmbiguousSend

  // The error inside a WriteError, as far as errors.Is looks at it.
  datatype Cause = NotConnected | WriteTimeout | ContextDone(deadline: bool) | DeviceError | ShortWrite

  datatype WriteError = WriteError(bytesWritten: nat, outcome: WriteOutcome, cause: Cause)

  predicate Ambiguous(e: WriteError) {
    e.outcome == AmbiguousSend || e.bytesWritten > 0 || e.cause == WriteTimeout
  }

  // What every transport promises about a document of `size` bytes of which `delivered` reached
  // the device: success means all of it, failure a prefix no shorter than reported, and a
  // failure that is not ambiguous means nothing.
  predicate Contract(size: nat, delivered: nat, report: Option<WriteError>) {
    match report
    case None => delivered == size
    case Some(e) => e.bytesWritten <= delivered <= size && (!Ambiguous(e) ==> delivered == 0)
  }

  // How the worker turns the report into the outcome it records. A report of success counts as
  // printed only while the Bluetooth link is confirmed up.
  function Verdict(report: Option<WriteError>, linkUp: bool, size: nat): Outcome {
    match report
    case None => if linkUp then Sent(size) else Unknown(size, "link_unknown_after_write")
    case Some(e) =>
      if Ambiguous(e) then Unknown(e.bytesWritten, "ambiguous_write")
      else NotPrinted(e.bytesWritten, "not_sent", true)
  }

  // A run is offered for automatic retry only when nothing reached the device, and a run is
  // recorded as sent only when everything did.
  lemma VerdictIsSafe(size: nat, delivered: nat, report: Option<WriteError>, linkUp: bool)
    requires Contract(size, delivered, report)
    ensures Verdict(report, linkUp, size).NotPrinted? ==> delivered == 0
    ensures Verdict(report, linkUp, size).Sent? ==> delivered == size
  {
  }

  // Which outcome is recorded: printed exactly after a complete write under a confirmed link; not
  // printed, and to be retried, exactly for an error that counts no byte, is no timeout and was not
  // reported as ambiguous; unknown in every other case.
  lemma VerdictExactly(report: Option<WriteError>, linkUp: bool, size: nat)
    ensures var o := Verdict(report, linkUp, size);
            && (o.Sent? <==> report.None? && linkUp)
            && (o.NotPrinted? <==> report.Some? && report.value.bytesWritten == 0 && report.value.outcome == NotSent
                                   && report.value.cause != WriteTimeout)
            && (o.NotPrinted? ==> o == NotPrinted(0, "not_sent", true))
            && o.bytes == (if report.Some? then report.value.bytesWritten else size)
            && (o.Unknown? ==> o.code == if report.Some? then "ambiguous_write" else "link_unknown_after_write")
  {
  }

  // How much of a document reached the device, and what the writer said.
  datatype Transmission = Transmission(delivered: nat, report: Option<WriteError>)

  function Min(a: nat, b: nat): nat { if a <= b then a else b }

  // What the device has now is what it had before and a prefix of the document.
  ghost predicate GotPrefix(before: seq<Byte>, now: seq<Byte>, data: seq<Byte>) {
    |before| <= |now| <= |before| + |data| && now == before + data[..|now| - |before|]
  }

  // Before the first byte.
  lemma NothingSent(before: seq<Byte>, data: seq<Byte>)
    ensures GotPrefix(before, before, data)
    ensures Contract(|data|, 0, Some(WriteError(0, NotSent, NotConnected)))
  {
  }

  // ---- serial ports and RFCOMM sockets ----

  const ChunkSize: nat := 512

  // What happens to one chunk: the write returns a byte count and perhaps an error, or the
  // watchdog or the context ends it first, after an unknown part was already accepted.
  datatype ChunkResult =
    | Returned(n: nat, failed: bool)
    | Expired(reached: nat)
    | Stopped(reached: nat, deadline: bool)

  function Failure(written: nat, cause: Cause): WriteError {
    WriteError(written,
               if written > 0 || cause == WriteTimeout || cause == ContextDone(false) then AmbiguousSend else NotSent,
               cause)
  }

  // How much of a chunk the device gets, how much of it the writer counts, and the error.
  function Reached(r: ChunkResult, chunk: nat): (k: nat)
    ensures k <= chunk
  {
    match r case Returned(n, _) => Min(n, chunk) case Expired(m) => Min(m, chunk) case Stopped(m, _) => Min(m, chunk)
  }

  function Counted(r: ChunkResult, chunk: nat): (k: nat)
    ensures k <= Reached(r, chunk)
  {
    if r.Returned? then Min(r.n, chunk) else 0
  }

  function ChunkError(r: ChunkResult, chunk: nat): (e: Option<Cause>)
    ensures e.None? ==> Counted(r, chunk) == chunk
  {
    match r
    case Returned(n, failed) => if failed then Some(DeviceError) else if n < chunk then Some(ShortWrite) else None
    case Expired(_) => Some(WriteTimeout)
    case Stopped(_, deadline) => Some(ContextDone(deadline))
  }

  // The rest of a transmission: how many bytes reach the device in all, and the report.
  function Send(size: nat, script: nat -> ChunkResult, i: nat, written: nat): Transmission
    decreases size - written
  {
    if written >= size then Transmission(written, None)
    else
      var chunk := Min(ChunkSize, size - written);
      var error := ChunkError(script(i), chunk);
      if error.Some?
      then Transmission(written + Reached(script(i), chunk), Some(Failure(written + Counted(script(i), chunk), error.value)))
      else Send(size, script, i + 1, written + chunk)
  }

  // The only failure reported as not sent although bytes may have left: the first chunk ended by
  // the context's own deadline, which neither writer tests for.
  predicate DeadlineOnFirst(size: nat, script: nat -> ChunkResult) {
    size > 0 && script(0).Stopped? && script(0).deadline && script(0).reached > 0
  }

  lemma {:induction false} SendContract(size: nat, script: nat -> ChunkResult, i: nat, written: nat)
    requires written <= size && (written == 0 ==> i == 0)
    ensures var s := Send(size, script, i, written);
            && (s.report.None? ==> s.delivered == size)
            && (s.report.Some? ==> written <= s.report.value.bytesWritten <= s.delivered <= size)
            && (s.report.Some? && !Ambiguous(s.report.value) && s.delivered > 0
                <==> written == 0 && DeadlineOnFirst(size, script))
    decreases size - written
  {
    if written < size {
      var chunk := Min(ChunkSize, size - written);
      if ChunkError(script(i), chunk).None? {
        SendContract(size, script, i + 1, written + chunk);
      }
    }
  }

  // The contract holds exactly when the first chunk is not ended by a deadline, so it holds for
  // every context without one.
  lemma SendMeetsContract(size: nat, script: nat -> ChunkResult)
    ensures var s := Send(size, script, 0, 0);
            Contract(size, s.delivered, s.report) <==> !DeadlineOnFirst(size, script)
  {
    SendContract(size, script, 0, 0);
  }

  // ---- the report, from the fate of each chunk ----

  // The length of chunk j of a document: 512 bytes, or what is left.
  function Piece(size: nat, j: nat): nat
    requires 512 * j < size
  {
    if size - 512 * j < 512 then size - 512 * j else 512
  }

  // The write of the chunk came back complete and without an error.
  predicate Whole(size: nat, script: nat -> ChunkResult, j: nat)
    requires 512 * j < size
  {
    script(j).Returned? && !script(j).failed && script(j).n >= Piece(size, j)
  }

  ghost predicate AllWhole(size: nat, script: nat -> ChunkResult) {
    forall j: nat | 512 * j < size :: Whole(size, script, j)
  }

  // Chunk k is the first that did not.
  ghost predicate FirstBroken(size: nat, script: nat -> ChunkResult, k: nat) {
    512 * k < size && !Whole(size, script, k) && forall j | 0 <= j < k :: Whole(size, script, j)
  }

  // The bytes counted by the time chunk k has failed.
  function CountedBy(size: nat, script: nat -> ChunkResult, k: nat): nat
    requires 512 * k < size
  {
    512 * k + (if !script(k).Returned? then 0 else if script(k).n < Piece(size, k) then script(k).n else Piece(size, k))
  }

  // The failure cannot be told from one that left bytes with the printer.
  predicate Doubtful(size: nat, script: nat -> ChunkResult, k: nat)
    requires 512 * k < size
  {
    CountedBy(size, script, k) > 0 || script(k).Expired? || (script(k).Stopped? && !script(k).deadline)
  }

  lemma {:induction false} SendSucceeds(size: nat, script: nat -> ChunkResult, i: nat, written: nat)
    requires written == if 512 * i < size then 512 * i else size
    ensures Send(size, script, i, written).report.None? <==> forall j: nat | i <= j && 512 * j < size :: Whole(size, script, j)
    decreases size - written
  {
    if written < size {
      assert Min(ChunkSize, size - written) == Piece(size, i);
      if Whole(size, script, i) {
        SendSucceeds(size, script, i + 1, written + Piece(size, i));
        assert forall j: nat | i <= j && 512 * j < size :: j == i || i + 1 <= j;
      }
    }
  }

  lemma {:induction false} SendFailsAt(size: nat, script: nat -> ChunkResult, i: nat, k: nat)
    requires i <= k && FirstBroken(size, script, k)
    ensures Send(size, script, i, 512 * i).report.Some?
    ensures var e := Send(size, script, i, 512 * i).report.value;
            && e.bytesWritten == CountedBy(size, script, k) && (Ambiguous(e) <==> Doubtful(size, script, k))
            && (e.outcome == AmbiguousSend <==> Doubtful(size, script, k))
    decreases k - i
  {
    assert 512 * i < size && Min(ChunkSize, size - 512 * i) == Piece(size, i);
    if i < k {
      assert Whole(size, script, i) && Piece(size, i) == 512;
      SendFailsAt(size, script, i + 1, k);
    }
  }

  // The writer reports success exactly when every chunk came back whole. Otherwise it counts the
  // bytes up to the first chunk that did not, and calls the failure ambiguous exactly when it counted
  // any, the chunk timed out, or the context was cancelled.
  lemma SendExactly(size: nat, script: nat -> ChunkResult)
    ensures var s := Send(size, script, 0, 0);
            && (s.report.None? <==> AllWhole(size, script))
            && forall k | FirstBroken(size, script, k) ::
                 && s.report.Some? && s.report.value.bytesWritten == CountedBy(size, script, k)
                 && (Ambiguous(s.report.value) <==> Doubtful(size, script, k))
                 && (s.report.value.outcome == AmbiguousSend <==> Doubtful(size, script, k))
  {
    SendSucceeds(size, script, 0, 0);
    forall k | FirstBroken(size, script, k)
      ensures var r := Send(size, script, 0, 0).report;
              && r.Some? && r.value.bytesWritten == CountedBy(size, script, k) && (Ambiguous(r.value) <==> Doubtful(size, script, k))
              && (r.value.outcome == AmbiguousSend <==> Doubtful(size, script, k))
    {
      SendFailsAt(size, script, 0, k);
    }
  }

  // Not every chunk whole means that some chunk is the first that is not.
  lemma SomeChunkBroken(size: nat, script: nat -> ChunkResult)
    ensures AllWhole(size, script) <==> !exists k :: FirstBroken(size, script, k)
  {
    if !AllWhole(size, script) {
      var j: nat :| 512 * j < size && !Whole(size, script, j);
      var k := FirstFrom(size, script, 0, j);
    }
  }

  lemma FirstFrom(size: nat, script: nat -> ChunkResult, i: nat, j: nat) returns (k: nat)
    requires i <= j && 512 * j < size && !Whole(size, script, j)
    requires forall n | 0 <= n < i :: Whole(size, script, n)
    ensures FirstBroken(size, script, k)
    decreases j - i
  {
    if Whole(size, script, i) {
      k := FirstFrom(size, script, i + 1, j);
    } else {
      k := i;
    }
  }

  // One byte delivered, then the deadline: reported as not sent.
  lemma DeadlineBreaksContract()
    ensures var s := Send(1, (i: nat) => Stopped(1, true), 0, 0);
            s.delivered == 1 && s.report.Some? && !Ambiguous(s.report.value)
            && Verdict(s.report, true, 1) == NotPrinted(0, "not_sent", true)
  {
  }

  // The far end of a serial line or RFCOMM socket.
  class Line {
    var received: seq<Byte>

    constructor ()
      ensures received == []
    {
      received := [];
    }

    // The part of one OS write that the device got.
    method Deliver(chunk: seq<Byte>, k: nat)
      requires k <= |chunk|
      modifies this
      ensures received == old(received) + chunk[..k]
    {
      received := received + chunk[..k];
    }
  }

  // writeChunk: the count the caller adds, and the error.
  method WriteChunk(line: Line, chunk: seq<Byte>, r: ChunkResult) returns (n: nat, failure: Option<Cause>)
    modifies line
    ensures line.received == old(line.received) + chunk[..Reached(r, |chunk|)]
    ensures n == Counted(r, |chunk|) && failure == ChunkError(r, |chunk|)
  {
    match r
    case Returned(m, failed) =>
      n := Min(m, |chunk|);
      line.Deliver(chunk, n);
      if failed {
        failure := Some(DeviceError);
      } else if n < |chunk| {
        failure := Some(ShortWrite);
      } else {
        failure := None;
      }
    case Expired(m) =>
      line.Deliver(chunk, Min(m, |chunk|));
      return 0, Some(WriteTimeout);
    case Stopped(m, deadline) =>
      line.Deliver(chunk, Min(m, |chunk|));
      return 0, Some(ContextDone(deadline));
  }

  // The chunk at data[start..end], as the next part of a document begun after `before`.
  method WritePiece(line: Line, data: seq<Byte>, start: nat, end: nat, r: ChunkResult, ghost before: seq<Byte>)
    returns (n: nat, failure: Option<Cause>)
    requires start <= end <= |data|
    requires GotPrefix(before, line.received, data) && |line.received| == |before| + start
    modifies line
    ensures GotPrefix(before, line.received, data)
    ensures |line.received| == |before| + start + Reached(r, end - start)
    ensures n == Counted(r, end - start) && failure == ChunkError(r, end - start)
  {
    ghost var now := line.received;
    n, failure := WriteChunk(line, data[start..end], r);
    PrefixGrows(before, now, line.received, data, start, end, Reached(r, end - start));
  }

  // SerialTransport and rfcommTransport; the two differ only in how the descriptor is opened.
  class StreamTransport {
    const line: Line
    var connected: bool

    constructor (line: Line)
      ensures this.line == line && !connected
    {
      this.line := line;
      connected := false;
    }

    method Connect()
      modifies this
      ensures connected
    {
      connected := true;
    }

    method Close()
      modifies this
      ensures !connected
    {
      connected := false;
    }

    method Write(data: seq<Byte>, script: nat -> ChunkResult) returns (report: Option<WriteError>)
      modifies this, line
      ensures GotPrefix(old(line.received), line.received, data)
      ensures !old(connected) ==>
                report == Some(WriteError(0, NotSent, NotConnected)) && line.received == old(line.received)
      ensures old(connected) ==>
                Transmission(|line.received| - |old(line.received)|, report) == Send(|data|, script, 0, 0)
      ensures !DeadlineOnFirst(|data|, script) ==>
                Contract(|data|, |line.received| - |old(line.received)|, report)
      ensures connected <==> old(connected) && report.None?
    {
      hide Contract, Send, DeadlineOnFirst, GotPrefix, Reached, Counted, ChunkError, Failure;
      SendMeetsContract(|data|, script);
      NothingSent(line.received, data);
      if !connected {
        return Some(WriteError(0, NotSent, NotConnected));
      }
      ghost var before := line.received;
      var written, i := 0, 0;
      while written < |data|
        invariant written <= |data| && connected
        invariant Send(|data|, script, 0, 0) == Send(|data|, script, i, written)
        invariant GotPrefix(before, line.received, data) && |line.received| == |before| + written
      {
        var end := Min(written + ChunkSize, |data|);
        SendStep(|data|, script, i, written);
        var n, failure := WritePiece(line, data, written, end, script(i), before);
        written := written + n;
        if failure.Some? {
          connected := false;
          return Some(Failure(written, failure.value));
        }
        i := i + 1;
      }
      SendDone(|data|, script, i);
      return None;
    }
  }

  // What one turn of the loop makes of the rest of the transmission.
  lemma SendStep(size: nat, script: nat -> ChunkResult, i: nat, written: nat)
    requires written < size
    ensures var chunk := Min(ChunkSize, size - written);
            var error := ChunkError(script(i), chunk);
            Send(size, script, i, written)
            == if error.Some?
               then Transmission(written + Reached(script(i), chunk),
                            Some(Failure(written + Counted(script(i), chunk), error.value)))
               else Send(size, script, i + 1, written + chunk)
  {
  }

  lemma SendDone(size: nat, script: nat -> ChunkResult, i: nat)
    ensures Send(size, script, i, size) == Transmission(size, None)
  {
  }

  // A chunk's delivered part extends the delivered prefix of the document.
  lemma PrefixGrows(before: seq<Byte>, now: seq<Byte>, received: seq<Byte>, data: seq<Byte>,
                    start: nat, end: nat, k: nat)
    requires start <= end <= |data| && k <= end - start
    requires GotPrefix(before, now, data) && |now| == |before| + start
    requires received == now + data[start..end][..k]
    ensures GotPrefix(before, received, data) && |received| == |before| + start + k
  {
    assert data[..start] + data[start..end][..k] == data[..start + k];
  }

  // ---- Bluetooth Low Energy ----

  // The characteristic's value length: an ATT write carries at most MTU-3 bytes (Bluetooth Core
  // Specification Vol 3 Part F, section 3.4.5) and an attribute at most 512 (section 3.2.9).
  function GattChunk(mtu: int): (n: nat)
    ensures 20 <= n <= 512
    ensures mtu >= 23 ==> n <= mtu - 3
    ensures if mtu < 23 then n == 20 else if mtu > 515 then n == 512 else n == mtu - 3
  {
    var size := mtu - 3;
    var atLeast := if size < 20 then 20 else size;
    if atLeast > 512 then 512 else atLeast
  }

  // What WriteValue does with one chunk. An error that is neither a timeout nor a cancellation
  // means the chunk was refused as a whole.
  datatype GattResult = Accepted | Refused | GattExpired(reached: nat) | Interrupted(reached: nat, sameError: bool)

  function GattFailure(written: nat, r: GattResult): WriteError
    requires !r.Accepted?
  {
    var cause := if r.Refused? || (r.Interrupted? && !r.sameError) then DeviceError else WriteTimeout;
    WriteError(written, if written > 0 || !r.Refused? then AmbiguousSend else NotSent, cause)
  }

  function GattReached(r: GattResult, chunk: nat): (k: nat)
    ensures k <= chunk && (r.Accepted? ==> k == chunk)
  {
    match r
    case Accepted => chunk
    case Refused => 0
    case GattExpired(m) => Min(m, chunk)
    case Interrupted(m, _) => Min(m, chunk)
  }

  // `stops(i)` says whether the context ends during the pause after chunk i.
  function GattSend(size: nat, step: nat, script: nat -> GattResult, stops: nat -> bool, i: nat, written: nat)
    : Transmission
    requires step > 0
    decreases size - written
  {
    if written >= size then Transmission(written, None)
    else
      var chunk := Min(step, size - written);
      var r := script(i);
      if !r.Accepted? then Transmission(written + GattReached(r, chunk), Some(GattFailure(written, r)))
      else if written + chunk < size && stops(i)
      then Transmission(written + chunk, Some(WriteError(written + chunk, AmbiguousSend, ContextDone(false))))
      else GattSend(size, step, script, stops, i + 1, written + chunk)
  }

  // Unconditionally, and a failure is reported as not sent exactly when the first chunk was refused.
  lemma {:induction false} GattContract(size: nat, step: nat, script: nat -> GattResult, stops: nat -> bool, i: nat, written: nat)
    requires step > 0 && written <= size && (written == 0 ==> i == 0)
    ensures var s := GattSend(size, step, script, stops, i, written);
            && Contract(size, s.delivered, s.report)
            && (s.report.Some? ==> written <= s.report.value.bytesWritten)
            && (s.report.Some? && !Ambiguous(s.report.value) <==> written == 0 && size > 0 && script(0).Refused?)
    decreases size - written
  {
    if written < size {
      var chunk := Min(step, size - written);
      if script(i).Accepted? && !(written + chunk < size && stops(i)) {
        GattContract(size, step, script, stops, i + 1, written + chunk);
      }
    }
  }

  // The chunk at position `start`, the j-th, was accepted, and the pause after it was not the end.
  predicate Through(size: nat, step: nat, script: nat -> GattResult, stops: nat -> bool, j: nat, start: nat)
  {
    script(j).Accepted? && (start + step < size ==> !stops(j))
  }

  // The chunks from the i-th on, which starts at `start`, all went through.
  predicate AllThrough(size: nat, step: nat, script: nat -> GattResult, stops: nat -> bool, i: nat, start: nat)
    requires step > 0
    decreases if start < size then size - start else 0
  {
    start >= size
    || (Through(size, step, script, stops, i, start) && AllThrough(size, step, script, stops, i + 1, start + step))
  }

  // Success is reported exactly when every chunk was accepted and no pause was the end.
  lemma {:induction false} GattSucceeds(size: nat, step: nat, script: nat -> GattResult, stops: nat -> bool, i: nat, start: nat)
    requires step > 0
    ensures GattSend(size, step, script, stops, i, if start < size then start else size).report.None?
       <==> AllThrough(size, step, script, stops, i, start)
    decreases if start < size then size - start else 0
  {
    if start < size {
      GattSucceeds(size, step, script, stops, i + 1, start + step);
      assert start + Min(step, size - start) == if start + step < size then start + step else size;
    }
  }

  // What is reported when the j-th chunk is the first that did not go through: the bytes of the chunks
  // before it, not sent exactly when there were none and the chunk was refused; or, when it was the
  // pause after it that ended, the bytes up to there, as ambiguous.
  lemma {:induction false} GattFailsAt(size: nat, step: nat, script: nat -> GattResult, stops: nat -> bool, i: nat, start: nat, j: nat)
    requires step > 0 && i <= j && start < size
    requires StopsAt(size, step, script, stops, i, start, j)
    ensures var e := GattSend(size, step, script, stops, i, start).report;
            && e.Some?
            && if script(j).Accepted? then e.value.outcome == AmbiguousSend && e.value.bytesWritten == start + step * (j - i + 1)
               else
                 && e.value.bytesWritten == start + step * (j - i)
                 && (e.value.outcome == NotSent <==> start + step * (j - i) == 0 && script(j).Refused?)
                 && (e.value.cause == WriteTimeout <==> script(j).GattExpired? || (script(j).Interrupted? && script(j).sameError))
    decreases j - i
  {
    if i < j {
      assert Through(size, step, script, stops, i, start) && start + step < size;
      GattFailsAt(size, step, script, stops, i + 1, start + step, j);
      assert step * (j - i) == step + step * (j - i - 1) && step * (j - i + 1) == step + step * (j - i);
    }
  }

  ghost predicate StopsAt(size: nat, step: nat, script: nat -> GattResult, stops: nat -> bool, i: nat, start: nat, j: nat)
    requires step > 0 && i <= j
    decreases j - i
  {
    start < size
    && if i == j then !Through(size, step, script, stops, i, start)
       else Through(size, step, script, stops, i, start) && StopsAt(size, step, script, stops, i + 1, start + step, j)
  }

  // The characteristic: what arrived, and the length of every WriteValue it was offered.
  class Characteristic {
    const mtu: int
    var received: seq<Byte>
    var offered: seq<nat>

    constructor (mtu: int)
      ensures this.mtu == mtu && received == [] && offered == []
    {
      this.mtu := mtu;
      received, offered := [], [];
    }

    method WriteValue(value: seq<Byte>, r: GattResult) returns (accepted: bool)
      modifies this
      ensures received == old(received) + value[..GattReached(r, |value|)]
      ensures offered == old(offered) + [|value|] && accepted == r.Accepted?
    {
      received := received + value[..GattReached(r, |value|)];
      offered := offered + [|value|];
      return r.Accepted?;
    }
  }

  class GattTransport {
    const characteristic: Characteristic
    var connected: bool

    constructor (characteristic: Characteristic)
      ensures this.characteristic == characteristic && !connected
    {
      this.characteristic := characteristic;
      connected := false;
    }

    method Connect()
      modifies this
      ensures connected
    {
      connected := true;
    }

    method Write(data: seq<Byte>, script: nat -> GattResult, stops: nat -> bool) returns (report: Option<WriteError>)
      modifies this, characteristic
      ensures GotPrefix(old(characteristic.received), characteristic.received, data)
      ensures Contract(|data|, |characteristic.received| - |old(characteristic.received)|, report)
      ensures report.Some? && !Ambiguous(report.value) <==> !old(connected) || (|data| > 0 && script(0).Refused?)
      ensures !old(connected) ==>
                report == Some(WriteError(0, NotSent, NotConnected)) && characteristic.received == old(characteristic.received)
      ensures old(connected) ==>
                Transmission(|characteristic.received| - |old(characteristic.received)|, report)
                == GattSend(|data|, GattChunk(characteristic.mtu), script, stops, 0, 0)
      ensures old(characteristic.offered) <= characteristic.offered
      ensures forall i | |old(characteristic.offered)| <= i < |characteristic.offered| ::
                1 <= characteristic.offered[i] <= GattChunk(characteristic.mtu)
      ensures connected <==> old(connected) && report.None?
    {
      hide Contract, GattSend, GattChunk, GotPrefix, GattFailure, GattReached;
      NothingSent(characteristic.received, data);
      if !connected {
        return Some(WriteError(0, NotSent, NotConnected));
      }
      var c := characteristic;
      var step := GattChunk(c.mtu);
      GattContract(|data|, step, script, stops, 0, 0);
      ghost var before := c.received;
      var written, i := 0, 0;
      while written < |data|
        invariant written <= |data| && connected
        invariant GattSend(|data|, step, script, stops, 0, 0) == GattSend(|data|, step, script, stops, i, written)
        invariant GotPrefix(before, c.received, data) && |c.received| == |before| + written
        invariant old(c.offered) <= c.offered
        invariant forall j | |old(c.offered)| <= j < |c.offered| :: 1 <= c.offered[j] <= step
      {
        var end := Min(written + step, |data|);
        GattStep(|data|, step, script, stops, i, written);
        ghost var now := c.received;
        var accepted := c.WriteValue(data[written..end], script(i));
        PrefixGrows(before, now, c.received, data, written, end, |c.received| - |now|);
        if !accepted {
          connected := false;
          return Some(GattFailure(written, script(i)));
        }
        written := end;
        if written < |data| && stops(i) {
          connected := false;
          return Some(WriteError(written, AmbiguousSend, ContextDone(false)));
        }
        i := i + 1;
      }
      GattDone(|data|, step, script, stops, i);
      return None;
    }
  }

  lemma GattStep(size: nat, step: nat, script: nat -> GattResult, stops: nat -> bool, i: nat, written: nat)
    requires step > 0 && written < size
    ensures var chunk := Min(step, size - written);
            var rest := GattSend(size, step, script, stops, i, written);
            if !script(i).Accepted?
            then rest == Transmission(written + GattReached(script(i), chunk), Some(GattFailure(written, script(i))))
            else if written + chunk < size && stops(i)
            then rest == Transmission(written + chunk, Some(WriteError(written + chunk, AmbiguousSend, ContextDone(false))))
            else rest == GattSend(size, step, script, stops, i + 1, written + chunk)
  {
  }

  lemma GattDone(size: nat, step: nat, script: nat -> GattResult, stops: nat -> bool, i: nat)
    requires step > 0
    ensures GattSend(size, step, script, stops, i, size) == Transmission(size, None)
  {
  }
}
