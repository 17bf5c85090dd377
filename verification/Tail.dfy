// The two tail loops over a running command's files: the subprocess driver polls the file system
// (packages/ports/sandbox/src/drivers/subprocess.ts), the ComputeSDK driver polls by remote command
// (packages/ports/sandbox/src/drivers/computesdk.ts).  Time only moves forward; every access happens
// at some instant of an arbitrary legal timeline, so the contracts hold under every interleaving.
module Tail {
  import opened Prelude
  import opened Events
  import opened OutputFiles
  import opened Wire

  datatype ExecEvent = Stdout(data: seq<byte>) | Exit(code: nat, truncated: bool)

  // All bytes a stream of events carries.
  function Carried(events: seq<ExecEvent>): seq<byte> {
    if events == [] then []
    else Carried(events[..|events| - 1]) + match events[|events| - 1] {
      case Stdout(data) => data
      case Exit(_, _) => []
    }
  }

  predicate AllStdout(events: seq<ExecEvent>) { forall i :: 0 <= i < |events| ==> events[i].Stdout? }

  // A complete stream: the bytes of `r` in pieces, then its exit.
  predicate Reports(events: seq<ExecEvent>, r: ExecResult) {
    && events != []
    && AllStdout(events[..|events| - 1])
    && Carried(events[..|events| - 1]) == r.output
    && events[|events| - 1].Exit?
    && events[|events| - 1].code == r.exitCode
    && events[|events| - 1].truncated == r.truncated
  }

  // The stream in full: the bytes up to the limit, then the code and whether any were cut off.
  predicate SaysAll(events: seq<ExecEvent>, f: Files) {
    && f.exit.Stamped? && events != [] && AllStdout(events[..|events| - 1])
    && var out := if f.out.Some? then f.out.value else [];
    && Carried(events[..|events| - 1]) == (if |out| > 200000 then out[..200000] else out)
    && events[|events| - 1] == Exit(f.exit.code, |out| > 200000)
  }

  lemma CarriedPush(events: seq<ExecEvent>, e: ExecEvent)
    ensures Carried(events + [e]) == Carried(events) + if e.Stdout? then e.data else []
  {
    assert (events + [e])[..|events|] == events;
  }

  // What one drain may still yield of `all`, having yielded the first `seen` bytes.
  function Clipped(all: seq<byte>, seen: nat, size: nat): seq<byte>
    requires seen <= size <= |all| && seen <= MAX_OUTPUT_BYTES
  {
    all[seen..Min(size, MAX_OUTPUT_BYTES)]
  }

  // What is left of the bytes behind the offset once the stream is clipped.
  function Clip(data: seq<byte>, total: nat): seq<byte>
    requires total <= MAX_OUTPUT_BYTES
  {
    if total + |data| > MAX_OUTPUT_BYTES then data[..MAX_OUTPUT_BYTES - total] else data
  }

  // Clipping the slice behind a prefix that was not clipped clips the whole.
  lemma ClipExtends(all: seq<byte>, seen: nat, size: nat)
    requires seen <= size <= |all| && seen <= MAX_OUTPUT_BYTES
    ensures Clip(all[seen..size], seen) == Clipped(all, seen, size)
  {
  }

  lemma Joined(all: seq<byte>, i: nat, j: nat)
    requires i <= j <= |all|
    ensures all[..i] + all[i..j] == all[..j]
  {
  }

  lemma YieldExtends(events: seq<ExecEvent>, all: seq<byte>, seen: nat, size: nat)
    requires seen <= size <= |all| && seen <= MAX_OUTPUT_BYTES
    requires AllStdout(events) && Carried(events) == all[..seen]
    ensures var buf := Clipped(all, seen, size); var events' := if |buf| > 0 then events + [Stdout(buf)] else events;
      AllStdout(events') && Carried(events') == all[..Min(size, MAX_OUTPUT_BYTES)]
  {
    var buf := Clipped(all, seen, size);
    Joined(all, seen, Min(size, MAX_OUTPUT_BYTES));
    if |buf| > 0 { CarriedPush(events, Stdout(buf)); }
  }

  // Everything up to `offset` was consumed; what was yielded is exactly its first 200000 bytes.
  ghost predicate Tallies(all: seq<byte>, offset: nat, total: nat, truncated: bool, events: seq<ExecEvent>) {
    && AllStdout(events)
    && offset <= |all|
    && Carried(events) == all[..Min(offset, MAX_OUTPUT_BYTES)]
    && total == Min(offset, MAX_OUTPUT_BYTES)
    && (truncated <==> offset > MAX_OUTPUT_BYTES)
  }

  lemma ClipTallies(all: seq<byte>, offset: nat, total: nat, events: seq<ExecEvent>, size: nat)
    requires Tallies(all, offset, total, false, events) && offset <= size <= |all|
    ensures var buf := Clip(all[offset..size], total);
      Tallies(all, size, total + |buf|, total + (size - offset) > MAX_OUTPUT_BYTES,
              if |buf| > 0 then events + [Stdout(buf)] else events)
  {
    ClipExtends(all, offset, size);
    YieldExtends(events, all, offset, size);
  }

  class SubprocessTail {
    const at: Timeline
    var now: nat
    var offset: nat
    var total: nat
    var truncated: bool
    var events: seq<ExecEvent>

    ghost predicate Valid()
      reads this
    {
      Legal(at) && Tallies(Bytes(at(now)), offset, total, truncated, events)
    }

    constructor (at: Timeline, start: nat)
      requires Legal(at)
      ensures Valid() && this.at == at && now == start && offset == 0 && events == []
    {
      this.at, now, offset, total, truncated, events := at, start, 0, 0, false, [];
    }

    // Any amount of time passes, at least `least`.
    method Pass(least: nat)
      requires Valid()
      modifies `now
      ensures Valid() && now >= old(now) + least
    {
      var more: int :| 0 <= more;
      TimelineMonotone(at, now, now + least + more);
      now := now + least + more;
    }

    // readSlice: stat, then read the bytes between the offset and the size seen by stat.
    method ReadSlice() returns (data: seq<byte>, size: nat)
      requires Valid()
      modifies `now
      ensures Valid() && now >= old(now)
      ensures size <= |Bytes(at(now))|
      ensures Bytes(at(old(now))) <= Bytes(at(now)) && |Bytes(at(old(now)))| <= size
      ensures size > offset ==> data == Bytes(at(now))[offset..size]
    {
      Pass(0);
      TimelineMonotone(at, old(now), now);
      if at(now).out.None? { return [], offset; }  // ENOENT: not created yet
      size := |Bytes(at(now))|;
      if size <= offset { return [], size; }
      label statted:
      Pass(0);
      TimelineMonotone(at, old@statted(now), now);
      TimelineMonotone(at, old(now), now);
      data := Bytes(at(now))[offset..size];
    }

    // Emits the bytes appended since the last drain, clipping the whole stream at the maximum.
    method Drain()
      requires Valid()
      modifies this
      ensures Valid() && now >= old(now)
      ensures offset >= |Bytes(at(old(now)))|
    {
      var data, size := ReadSlice();
      if size > offset { YieldSlice(data, size); }
    }

    // Moves the offset, and yields what of the slice is below the maximum.
    method YieldSlice(data: seq<byte>, size: nat)
      requires Valid() && offset < size <= |Bytes(at(now))| && data == Bytes(at(now))[offset..size]
      modifies `offset, `total, `truncated, `events
      ensures Valid() && offset == size
    {
      ghost var seen := offset;
      offset := size;
      if truncated { return; }
      ClipTallies(Bytes(at(now)), seen, total, events, size);
      var buf := data;
      if total + |buf| > MAX_OUTPUT_BYTES {
        buf := buf[..MAX_OUTPUT_BYTES - total];
        truncated := true;
      }
      if |buf| > 0 {
        total := total + |buf|;
        events := events + [Stdout(buf)];
      }
    }

    // readExitCode: null while `exit` is absent or still empty.
    method ReadExit() returns (code: Option<nat>)
      requires Valid()
      modifies `now
      ensures Valid() && now >= old(now)
      ensures code.Some? <==> at(now).exit.Stamped?
      ensures code.Some? ==> code.value == at(now).exit.code
    {
      Pass(0);
      var exit := at(now).exit;
      code := if exit.Stamped? then Some(exit.code) else None;
    }

    // The command exits by `end`; the tail then ends with its report, whenever it polled.
    method Run(ghost end: nat)
      requires Valid() && events == []
      requires at(end).exit.Stamped?
      modifies this
      ensures Reports(events, Report(at(end)))
      ensures SaysAll(events, at(end))
    {
      while true
        invariant Valid()
        decreases end - now
      {
        Drain();
        var code := ReadExit();
        if code.Some? {
          ghost var stamped := now;
          TimelineMonotone(at, Min(stamped, end), if stamped < end then end else stamped);
          Drain();
          TimelineMonotone(at, stamped, now);
          ghost var n := |Bytes(at(end))|;
          assert Bytes(at(now))[..Min(offset, MAX_OUTPUT_BYTES)] == Bytes(at(end))[..Min(n, MAX_OUTPUT_BYTES)];
          assert (events + [Exit(code.value, truncated)])[..|events|] == events;
          events := events + [Exit(code.value, truncated)];
          return;
        }
        if now >= end { TimelineMonotone(at, end, now); }
        Pass(1);
      }
    }
  }

  // What the script prints, however wc pads and base64 wraps.
  method PrintPoll(p: Poll) returns (stdout: string)
    ensures ReadEnvelope(stdout) == Reading(p.code, Some(p.size), p.chunk)
  {
    var pad: int :| 0 <= pad;
    var width: int :| 0 < width;
    EnvelopeRoundTrip(p, pad, width);
    stdout := Envelope(p, pad, width);
  }

  class ComputeSdkTail {
    const at: Timeline
    var now: nat
    var offset: nat
    var events: seq<ExecEvent>

    // `offset` bytes were yielded, in order, and never more than the maximum.
    ghost predicate Valid()
      reads this
    {
      && Legal(at)
      && AllStdout(events)
      && offset <= MAX_OUTPUT_BYTES
      && offset <= |Bytes(at(now))|
      && Carried(events) == Bytes(at(now))[..offset]
    }

    constructor (at: Timeline, start: nat)
      requires Legal(at)
      ensures Valid() && this.at == at && now == start && offset == 0 && events == []
    {
      this.at, now, offset, events := at, start, 0, [];
    }

    method Pass(least: nat)
      requires Valid()
      modifies `now
      ensures Valid() && now >= old(now) + least
    {
      var more: int :| 0 <= more;
      TimelineMonotone(at, now, now + least + more);
      now := now + least + more;
    }

    // pollScript run in the sandbox: the exit line, then the size, then the slice, each read at its
    // own instant; the remote shell may also be unreachable.
    method PollScript(cap: nat) returns (reached: bool, stdout: string, ghost p: Poll, ghost first: nat)
      requires Valid()
      modifies `now
      ensures Valid() && old(now) <= first <= now
      ensures ReadEnvelope(stdout) == Reading(p.code, Some(p.size), p.chunk)
      ensures p.code.Some? <==> at(first).exit.Stamped?
      ensures p.code.Some? ==> p.code.value == at(first).exit.code && p.size == |Bytes(at(first))|
      ensures p.chunk == Bytes(at(now))[offset..offset + Min(cap, |Bytes(at(now))| - offset)]
    {
      var code: Option<nat>, size: nat;
      code, size, first := StatOut();
      Pass(0);
      var out := Bytes(at(now));
      p := Poll(code, size, out[offset..offset + Min(cap, |out| - offset)]);
      stdout := PrintPoll(Poll(code, size, out[offset..offset + Min(cap, |out| - offset)]));
      reached := *;
    }

    // The exit line, then the size line.
    method StatOut() returns (code: Option<nat>, size: nat, ghost first: nat)
      requires Valid()
      modifies `now
      ensures Valid() && old(now) <= first <= now
      ensures code.Some? <==> at(first).exit.Stamped?
      ensures code.Some? ==> code.value == at(first).exit.code && size == |Bytes(at(first))|
    {
      Pass(0);
      first := now;
      var exit := at(now).exit;
      code := if exit.Stamped? then Some(exit.code) else None;
      Pass(0);
      TimelineMonotone(at, first, now);
      size := |Bytes(at(now))|;
    }

    // Yields the next bytes of `out`.
    method Emit(data: seq<byte>)
      requires Valid() && offset + |data| <= Min(MAX_OUTPUT_BYTES, |Bytes(at(now))|)
      requires data == Bytes(at(now))[offset..offset + |data|]
      modifies `offset, `events
      ensures Valid() && offset == old(offset) + |data|
    {
      if |data| > 0 {
        CarriedPush(events, Stdout(data));
        assert Bytes(at(now))[..offset] + data == Bytes(at(now))[..offset + |data|];
        offset := offset + |data|;
        events := events + [Stdout(data)];
      }
    }

    // One round trip: poll, take the text apart, yield the slice.
    method Round() returns (reached: bool, r: Reading, ghost first: nat)
      requires Valid()
      modifies this
      ensures Valid() && old(now) <= first <= now
      ensures r.code.Some? ==> reached && at(first).exit == Stamped(r.code.value)
      ensures reached && r.code.None? ==> !at(first).exit.Stamped?
      ensures r.code.Some? ==> r.size == Some(|Bytes(at(first))|)
      ensures reached ==> offset == Min(MAX_OUTPUT_BYTES, |Bytes(at(now))|)
    {
      var stdout: string;
      ghost var p: Poll;
      reached, stdout, p, first := PollScript(MAX_OUTPUT_BYTES - offset);
      if !reached { return false, Reading(None, None, []), first; }
      r := ReadEnvelope(stdout);
      Emit(r.chunk);
    }

    method Run(ghost end: nat) returns (observed: bool)
      requires Valid() && events == []
      requires at(end).exit.Stamped?
      modifies this
      ensures observed ==> Reports(events, Report(at(end)))
      ensures observed ==> SaysAll(events, at(end))
    {
      while true
        invariant Valid()
        decreases end - now
      {
        var reached, r, first := Round();
        if !reached { return false; }
        if r.code.Some? {
          TimelineMonotone(at, first, now);
          TimelineMonotone(at, Min(first, end), if first < end then end else first);
          var stop := Exit(r.code.value, r.size.Some? && r.size.value > MAX_OUTPUT_BYTES);
          assert (events + [stop])[..|events|] == events;
          events := events + [stop];
          return true;
        }
        if first >= end { TimelineMonotone(at, end, first); }
        Pass(1);
      }
    }
  }

  datatype Collected = Ran(result: ExecResult) | SandboxUnavailable

  // runExec: fold the stream into one result; a stream without an exit event is unobservable.
  method RunExec(events: seq<ExecEvent>) returns (r: Collected)
    ensures r.SandboxUnavailable? <==> AllStdout(events)
    ensures events != [] && AllStdout(events[..|events| - 1]) && events[|events| - 1].Exit? ==>
              r.Ran? && Reports(events, r.result)
  {
    var output: seq<byte> := [];
    var exitCode, truncated, sawExit := 0, false, false;
    for i := 0 to |events|
      invariant output == Carried(events[..i])
      invariant sawExit <==> !AllStdout(events[..i])
      invariant i > 0 && events[i - 1].Exit? ==> exitCode == events[i - 1].code && truncated == events[i - 1].truncated
      invariant i > 0 && events[i - 1].Exit? ==> output == Carried(events[..i - 1])
    {
      assert events[..i + 1] == events[..i] + [events[i]];
      CarriedPush(events[..i], events[i]);
      match events[i]
      case Exit(c, t) => exitCode, truncated, sawExit := c, t, true;
      case Stdout(data) => output := output + data;
    }
    assert events[..|events|] == events;
    if !sawExit { return SandboxUnavailable; }
    r := Ran(ExecResult(output, exitCode, truncated));
  }
}
