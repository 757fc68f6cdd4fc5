/**
 * How a Read ends (backend/tunnel/conn.go Read, onStreamMessage, Close and the terminal latch): with the next bytes of
 * the stream, with the end once everything before it is out, and never with data again once the conn is closed.
 */
module ReadEnd {
  import opened Bytes
  import opened Downstream

  // ----- The first end sticks -----

  lemma EndStepSticks(s: State, a: Action)
    requires Enabled(s, a) && s.terminal.Some?
    ensures Next(s, a).terminal == s.terminal
  {
    match a
    case ByWorker(w) => WorkerFrame(s, w);
    case ByDispatcher(d) =>
    case ByReader(r) => ReaderFrame(s, r);
    case ByLoop(l) => LoopFrame(s, l);
    case Close =>
    case ChannelDies =>
  }

  /** Whatever else comes in, the end that was latched first is the one every later Read reports. */
  lemma {:induction false} FirstEndSticks(s: State, later: seq<Action>)
    requires s.terminal.Some? && ValidRun(s, later)
    ensures After(s, later).terminal == s.terminal
    decreases |later|
  {
    if later != [] {
      EndStepSticks(s, later[0]);
      FirstEndSticks(Next(s, later[0]), later[1..]);
    }
  }

  // ----- Close -----

  /** The conn is closed and no Read is between its closed check and its outcome. */
  predicate Shut(s: State)
  {
    s.closed && !s.r.pc.PollBuf? && !s.r.pc.PollTerminal? && !s.r.pc.Parked?
  }

  /** Nothing was handed to a caller, and nothing was buffered but a frame the dispatcher already held. */
  ghost predicate Silent(s: State, t: State)
  {
    && t.r.returned == s.r.returned && t.r.part == s.r.part
    && (if Held(s.d) == [] then Held(t.d) == [] && t.log == s.log && t.readBuf == s.readBuf
        else (t.log == s.log && t.readBuf == s.readBuf) || (Held(t.d) == [] && t.log == s.log + Held(s.d) && t.readBuf == s.readBuf + Held(s.d)))
    && (Held(t.d) == [] || Held(t.d) == Held(s.d))
  }

  lemma DispatcherSilent(s: State, a: DispatchStep)
    requires Shut(s) && DispatcherMay(s, a)
    ensures Shut(DispatcherDoes(s, a)) && Silent(s, DispatcherDoes(s, a))
  {
    DispatcherFrame(s, a);
  }

  lemma ReaderSilent(s: State, a: ReadStep)
    requires Shut(s) && ReaderMay(s, a)
    ensures Shut(ReaderDoes(s, a)) && Silent(s, ReaderDoes(s, a))
  {
  }

  lemma StepSilent(s: State, a: Action)
    requires Shut(s) && Enabled(s, a)
    ensures Shut(Next(s, a)) && Silent(s, Next(s, a))
  {
    match a
    case ByWorker(w) => WorkerFrame(s, w);
    case ByDispatcher(d) => DispatcherSilent(s, d);
    case ByReader(r) => ReaderSilent(s, r);
    case ByLoop(l) => LoopFrame(s, l);
    case Close =>
    case ChannelDies =>
  }

  lemma SilentTwice(s: State, t: State, u: State)
    requires Silent(s, t) && Silent(t, u)
    ensures Silent(s, u)
  {
  }

  lemma {:induction false} StaysSilent(s: State, later: seq<Action>)
    requires Shut(s) && ValidRun(s, later)
    ensures Shut(After(s, later)) && Silent(s, After(s, later))
    decreases |later|
  {
    if later != [] {
      var t := Next(s, later[0]);
      StepSilent(s, later[0]);
      StaysSilent(t, later[1..]);
      SilentTwice(s, t, After(t, later[1..]));
    }
  }

  /**
   * After Close no Read returns data: unless a Read was already past its closed check, in every continuation no caller
   * gets another byte, and only a frame the dispatcher already held may still be buffered.
   */
  lemma CloseEndsReads(s: State, later: seq<Action>)
    requires !s.r.pc.PollBuf? && !s.r.pc.PollTerminal? && !s.r.pc.Parked? && ValidRun(Next(s, Close), later)
    ensures var t := After(Next(s, Close), later);
            && t.closed && t.r.returned == s.r.returned && t.r.part == s.r.part
            && (t.log == s.log || t.log == s.log + Held(s.d))
  {
    StaysSilent(Next(s, Close), later);
  }

  // ----- What a Read comes to -----

  lemma ReaderGoes(s: State, acts: seq<Action>, r: ReadStep) returns (more: seq<Action>)
    requires ValidRun(s, acts) && ReaderMay(After(s, acts), r)
    ensures more == acts + [ByReader(r)] && ValidRun(s, more) && After(s, more) == ReaderDoes(After(s, acts), r)
  {
    RunSnoc(s, acts, ByReader(r));
    more := acts + [ByReader(r)];
  }

  /** The bytes a Read of n would hand out next: of readPart, else of the head of readBuf. */
  function NextBytes(s: State, n: nat): bytes
  {
    if s.r.part != [] then s.r.part[..Min(n, |s.r.part|)]
    else if s.readBuf != [] then s.readBuf[0].data[..Min(n, |s.readBuf[0].data|)]
    else []
  }

  /**
   * A Read on an open conn, running undisturbed: if anything is buffered it hands out the next bytes, at least one and
   * at most n, even when an end is latched; otherwise it returns with the end if there is one, and waits if there is none.
   */
  lemma ReadComesTo(s: State, n: nat) returns (acts: seq<Action>)
    requires Reached(s) && !s.closed && n > 0 && s.r.pc == AtTop(n)
    ensures ValidRun(s, acts) && (forall i :: 0 <= i < |acts| ==> acts[i].ByReader?)
    ensures var t := After(s, acts);
            && t.r.returned == s.r.returned + NextBytes(s, n)
            && (if s.r.part != [] || s.readBuf != []
                then (t.r.pc.Free? || t.r.pc.MustAccrue?) && 0 < |NextBytes(s, n)| <= n
                else t.r.pc == (if s.terminal.Some? then Free else Parked(n)) && t.r.part == [])
  {
    ReachedInv(s);
    if s.readBuf != [] {
      HeadNotEmpty(s);
    }
    acts := ReaderGoes(s, [], TopCheck);
    if s.r.part == [] {
      acts := ReaderGoes(s, acts, TryBuf);
      if s.readBuf == [] {
        acts := ReaderGoes(s, acts, TryTerminal);
      }
    }
  }

  lemma HeadNotEmpty(s: State)
    requires SizeInv(s) && BytesInv(s) && s.readBuf != []
    ensures |s.readBuf[0].data| > 0
  {
    assert s.log[|s.log| - |s.readBuf|] == s.readBuf[0];
  }

  /** A Read that waits takes the next frame as soon as one is buffered, and goes back to look once an end is latched. */
  lemma ParkedReadWakes(s: State, n: nat)
    requires Reached(s) && n > 0 && s.r.pc == Parked(n)
    ensures s.readBuf != [] ==>
              ReaderMay(s, TakeParked) &&
              var t := ReaderDoes(s, TakeParked);
              t.r.returned == s.r.returned + s.readBuf[0].data[..Min(n, |s.readBuf[0].data|)] && 0 < |t.r.returned| - |s.r.returned| <= n
    ensures s.terminal.Some? ==> ReaderMay(s, WakeTerminal) && ReaderDoes(s, WakeTerminal) == s.(r := s.r.(pc := AtTop(n)))
    ensures s.dead ==> ReaderMay(s, WakeDead) && ReaderDoes(s, WakeDead).terminal.Some? && ReaderDoes(s, WakeDead).r.pc == AtTop(n)
    ensures s.closed ==> ReaderMay(s, WakeClosed) && ReaderDoes(s, WakeClosed).r == s.r.(pc := Free)
  {
    ReachedInv(s);
    if s.readBuf != [] {
      HeadNotEmpty(s);
    }
  }
}
