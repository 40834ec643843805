/** Running a child process and reading both its outputs within fixed limits. */
module BoundedReader {
  import opened Common

  newtype byte = x: int | 0 <= x < 256

  datatype Stream = Stdout | Stderr

  /** A readable stream; the system decides how much of it one read returns, but at least a byte. */
  datatype Event = Readable(stream: Stream, amount: nat)

  /** What one turn of the loop meets: the deadline, nothing ready, a failing system call, or readable streams. */
  datatype Turn = Deadline | Quiet | Broken | Ready(events: seq<Event>)

  datatype Ending = Exits(code: int) | Lingers | Vanishes

  /** The child: whether it starts, what it writes, how it ends. */
  datatype Child = Child(starts: bool, stdout: seq<byte>, stderr: seq<byte>, ending: Ending)

  datatype Error = ValueError | Timeout | OutputLimit | EnvironmentUnavailable

  datatype Completed = Completed(code: int, stdout: seq<byte>, stderr: seq<byte>)

  /** One stream as the reader sees it: what is buffered, what is still to come, whether it is registered. */
  datatype Channel = Channel(buffer: seq<byte>, rest: seq<byte>, registered: bool)

  const CHUNK := 65536

  function Requested(limit: nat, held: nat): int
  {
    if CHUNK < limit - held + 1 then CHUNK else limit - held + 1
  }

  /** `os.read`: nothing exactly at the end of the stream, otherwise between one byte and `size`. */
  function Read(rest: seq<byte>, size: nat, amount: nat): (chunk: seq<byte>)
    requires size >= 1
    ensures chunk <= rest && |chunk| <= size && (chunk == [] <==> rest == [])
  {
    var most := if |rest| < size then |rest| else size;
    rest[..if amount < 1 then (if most < 1 then most else 1) else if amount < most then amount else most]
  }

  /** The channel holds a part of the stream within the limit, and all of it once it is closed. */
  ghost predicate Follows(c: Channel, contents: seq<byte>, limit: nat)
  {
    c.buffer + c.rest == contents && |c.buffer| <= limit && (!c.registered ==> c.rest == [])
  }

  /** One read; `over` when the stream is longer than its limit. */
  method ReadOnce(c: Channel, limit: nat, amount: nat, ghost contents: seq<byte>)
    returns (after: Channel, over: bool)
    requires c.registered && Follows(c, contents, limit) && limit >= 1
    ensures over ==> |contents| > limit && |after.buffer| == limit + 1 && after.registered
    ensures !over ==> Follows(after, contents, limit)
    ensures |after.buffer| <= limit + 1 && after.buffer <= contents
    ensures (|after.buffer| > |c.buffer| && after.registered) || (after.buffer == c.buffer && !after.registered)
  {
    var chunk := Read(c.rest, Requested(limit, |c.buffer|), amount);
    if chunk == [] {
      assert c.buffer == contents;
      return c.(registered := false), false;
    }
    after := Channel(c.buffer + chunk, c.rest[|chunk|..], true);
    assert after.buffer + after.rest == contents;
    over := |after.buffer| > limit;
  }

  /** Reads left before the channel must close or overflow. */
  function Budget(c: Channel, limit: nat): int
  {
    if c.registered then limit + 1 - |c.buffer| else 0
  }

  ghost predicate Serves(events: seq<Event>, stream: Stream)
  {
    exists k :: 0 <= k < |events| && events[k].stream == stream
  }

  /** Every turn finds both streams readable, and there are enough turns to read up to the limits. */
  ghost predicate Attentive(turns: seq<Turn>, outLimit: int, errLimit: int)
  {
    && |turns| >= outLimit + errLimit + 2
    && forall i :: 0 <= i < |turns| ==>
                     turns[i].Ready? && Serves(turns[i].events, Stdout) && Serves(turns[i].events, Stderr)
  }

  /** The most that was buffered at any moment: of each stream, and of both together. */
  datatype Peak = Peak(stdout: nat, stderr: nat, both: nat)

  function Risen(peak: Peak, out: Channel, err: Channel): (risen: Peak)
    ensures risen.stdout >= |out.buffer| && risen.stderr >= |err.buffer| && risen.both >= |out.buffer| + |err.buffer|
    ensures risen.stdout >= peak.stdout && risen.stderr >= peak.stderr && risen.both >= peak.both
  {
    Peak(if |out.buffer| > peak.stdout then |out.buffer| else peak.stdout,
         if |err.buffer| > peak.stderr then |err.buffer| else peak.stderr,
         if |out.buffer| + |err.buffer| > peak.both then |out.buffer| + |err.buffer| else peak.both)
  }

  /** At most one byte beyond its limit of each stream, and one beyond both limits in all. */
  predicate WithinLimits(peak: Peak, outLimit: int, errLimit: int)
  {
    peak.stdout <= outLimit + 1 && peak.stderr <= errLimit + 1 && peak.both <= outLimit + errLimit + 1
  }

  /** Serve the readable streams of one turn. */
  method Serve(events: seq<Event>, out: Channel, err: Channel, outLimit: nat, errLimit: nat,
               peak: Peak, ghost stdout: seq<byte>, ghost stderr: seq<byte>)
    returns (out': Channel, err': Channel, over: bool, readCount: nat, peak': Peak)
    requires outLimit >= 1 && errLimit >= 1 && WithinLimits(peak, outLimit, errLimit)
    requires Follows(out, stdout, outLimit) && Follows(err, stderr, errLimit)
    ensures over ==> |stdout| > outLimit || |stderr| > errLimit
    ensures !over ==> Follows(out', stdout, outLimit) && Follows(err', stderr, errLimit)
    ensures WithinLimits(peak', outLimit, errLimit) && peak' == Risen(peak', out', err')
    ensures !over ==> readCount <= Budget(out, outLimit) + Budget(err, errLimit) - Budget(out', outLimit) - Budget(err', errLimit)
    ensures over ==> readCount <= Budget(out, outLimit) + Budget(err, errLimit)
    ensures (out.registered && Serves(events, Stdout)) || (err.registered && Serves(events, Stderr)) ==> readCount >= 1
  {
    out', err', over, readCount := out, err, false, 0;
    peak' := Risen(peak, out, err);
    var i := 0;
    while i < |events|
      invariant i <= |events| && !over
      invariant Follows(out', stdout, outLimit) && Follows(err', stderr, errLimit)
      invariant readCount <= Budget(out, outLimit) + Budget(err, errLimit) - Budget(out', outLimit) - Budget(err', errLimit)
      invariant WithinLimits(peak', outLimit, errLimit) && peak' == Risen(peak', out', err')
      invariant readCount == 0 ==> out' == out && err' == err
      invariant readCount == 0 ==>
                  forall k :: 0 <= k < i ==> !(if events[k].stream == Stdout then out.registered else err.registered)
    {
      var e := events[i];
      if e.stream == Stdout && out'.registered {
        out', over := ReadOnce(out', outLimit, e.amount, stdout);
        readCount := readCount + 1;
      } else if e.stream == Stderr && err'.registered {
        err', over := ReadOnce(err', errLimit, e.amount, stderr);
        readCount := readCount + 1;
      }
      peak' := Risen(peak', out', err');
      if over {
        return;
      }
      i := i + 1;
    }
  }

  /**
   * A normal return carries the complete contents of both streams, each within its limit; an output-limit
   * error is raised only for a stream that is longer than its limit, and always for one read that far. At
   * most one byte beyond its limit is ever held of each stream, and one in all; the number of reads is bounded
   * by the limits alone.
   * Every error after the start kills the process group.
   */
  method RunBoundedChild(child: Child, timeout: int, outLimit: int, errLimit: int, turns: seq<Turn>)
    returns (r: Result<Completed, Error>, readCount: nat, peak: Peak, killed: bool)
    ensures r == Err(ValueError) <==> timeout <= 0 || outLimit < 1 || errLimit < 1
    ensures r.Ok? ==> child.starts && child.ending == Exits(r.value.code)
                      && r.value.stdout == child.stdout && r.value.stderr == child.stderr
                      && |child.stdout| <= outLimit && |child.stderr| <= errLimit
    ensures r == Err(OutputLimit) ==> |child.stdout| > outLimit || |child.stderr| > errLimit
    ensures timeout > 0 && outLimit >= 1 && errLimit >= 1 && child.starts && Attentive(turns, outLimit, errLimit) ==>
              (r == Err(OutputLimit) <==> |child.stdout| > outLimit || |child.stderr| > errLimit)
              && (r.Ok? <==> child.ending.Exits? && |child.stdout| <= outLimit && |child.stderr| <= errLimit)
              && (r == Err(Timeout) <==> child.ending.Lingers? && |child.stdout| <= outLimit && |child.stderr| <= errLimit)
              && (r == Err(EnvironmentUnavailable)
                  <==> child.ending.Vanishes? && |child.stdout| <= outLimit && |child.stderr| <= errLimit)
    ensures r != Err(ValueError) && !child.starts ==> r == Err(EnvironmentUnavailable)
    ensures r != Err(ValueError) && child.starts && (turns == [] || turns[0] == Deadline || turns[0] == Quiet) ==>
              r == Err(Timeout)
    ensures r != Err(ValueError) && child.starts && turns != [] && turns[0] == Broken ==> r == Err(EnvironmentUnavailable)
    ensures r == Err(Timeout) ==>
              Deadline in turns || Quiet in turns || child.ending == Lingers
              || forall k :: 0 <= k < |turns| ==> turns[k].Ready?
    ensures r == Err(EnvironmentUnavailable) ==> !child.starts || Broken in turns || child.ending == Vanishes
    ensures r != Err(ValueError) ==> readCount <= outLimit + errLimit + 2 && WithinLimits(peak, outLimit, errLimit)
    ensures killed <==> r.Err? && r != Err(ValueError) && child.starts
  {
    readCount, peak, killed := 0, Peak(0, 0, 0), false;
    if timeout <= 0 || outLimit < 1 || errLimit < 1 {
      return Err(ValueError), readCount, peak, killed;
    }
    if !child.starts {
      return Err(EnvironmentUnavailable), readCount, peak, killed;
    }
    var out, err := Channel([], child.stdout, true), Channel([], child.stderr, true);
    var i := 0;
    while out.registered || err.registered
      invariant i <= |turns|
      invariant Follows(out, child.stdout, outLimit) && Follows(err, child.stderr, errLimit)
      invariant readCount + Budget(out, outLimit) + Budget(err, errLimit) <= outLimit + errLimit + 2
      invariant WithinLimits(peak, outLimit, errLimit)
      invariant Attentive(turns, outLimit, errLimit) ==> i <= readCount
      invariant (forall k :: 0 <= k < i ==> turns[k].Ready?) && (i == 0 ==> out.registered)
      decreases |turns| - i
    {
      var turn := if i < |turns| then turns[i] else Deadline;
      match turn {
        case Deadline => return Err(Timeout), readCount, peak, true;
        case Quiet => return Err(Timeout), readCount, peak, true;
        case Broken => return Err(EnvironmentUnavailable), readCount, peak, true;
        case Ready(events) =>
          var over, more;
          out, err, over, more, peak := Serve(events, out, err, outLimit, errLimit, peak, child.stdout, child.stderr);
          readCount := readCount + more;
          if over {
            return Err(OutputLimit), readCount, peak, true;
          }
      }
      i := i + 1;
    }
    match child.ending {
      case Exits(code) => r := Ok(Completed(code, out.buffer, err.buffer));
      case Lingers => return Err(Timeout), readCount, peak, true;
      case Vanishes => return Err(EnvironmentUnavailable), readCount, peak, true;
    }
  }
}
