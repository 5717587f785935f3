/** Serial input and output as streams: every character once, in order. */
module Streams {
  import opened QueuePool
  import opened KernelModel
  import opened SerialModel
  import opened Ownership
  import opened Dispatching
  import opened Safety
  import opened Progress
  import opened Runs
  import opened Timing

  // -------- What can be seen of one step --------

  /** The character this event brings in, as LF if it is a CR; none if the buffer is full. */
  ghost function Accepted(s: State, e: Event): seq<nat>
    requires Shape(s)
  {
    if e.Receive? && (s.q[READING] != [] || |s.io.input| < BUF_SIZE) then
      [if e.ch % 256 == CR then LF else e.ch % 256]
    else []
  }

  /** The character some process finds in its EAX save area after the step. */
  ghost function Delivered(s: State, e: Event, r: State): seq<nat>
    requires Shape(s) && Shape(r)
  {
    if e.Read? && s.io.input != [] then [r.pcbs[s.current].eax]
    else if e.Receive? && s.q[READING] != [] then [r.pcbs[s.q[READING][0]].eax]
    else []
  }

  ghost function Blocking(s: State, e: Event): seq<Id> {
    if e.Read? && s.io.input == [] then [s.current] else []
  }

  ghost function Served(s: State, e: Event): seq<Id>
    requires Shape(s)
  {
    if e.Receive? && s.q[READING] != [] then [s.q[READING][0]] else []
  }

  /** The bytes a write asks for: LF goes out as CR LF. */
  ghost function Written(e: Event): seq<nat> {
    if !e.Write? then [] else if e.ch == LF then [CR, LF] else [e.ch % 256]
  }

  ghost predicate Quiet(s: State, r: State)
    requires Shape(s) && Shape(r)
  {
    r.io == s.io && r.q[READING] == s.q[READING]
  }

  lemma QuietDispatch(s: State, t: State)
    requires Shape(s) && Shape(t)
    ensures Dispatch(t).Ok? && Quiet(s, t) ==> Quiet(s, Dispatch(t).state)
  {
    DispatchSparesSleepers(t, 0);
  }

  lemma QuietTick(s: State)
    requires Inv(s) && Tock(s).Ok?
    ensures Quiet(s, Tock(s).state)
  {
    var s0 := s.(now := NextTime(s));
    ClockCore(s, {s.current}, NextTime(s));
    WakeCore(s0, {s.current});
    QuietDispatch(s, Schedule(Wake(s0), s.current));
  }

  lemma QuietSleep(s: State, num: nat)
    requires Inv(s) && SleepCall(s, num).Ok?
    ensures Quiet(s, SleepCall(s, num).state)
  {
    if num == 0 {
      QuietDispatch(s, Schedule(s, s.current));
    } else {
      QuietDispatch(s, Dozing(s, WakeTime(s, num)));
    }
  }

  lemma QuietSpawn(s: State, level: nat)
    requires Inv(s) && SpawnCall(s, level).Ok?
    ensures Quiet(s, SpawnCall(s, level).state)
  {
    hide Placed, StatusAgrees, StacksOwned, SleepersKeyed, ShmsSingle;
    if s.q[FREE_PCBS] != [] {
      ChildCore(s, level);
      AdmitCore(Child(s, level), s.current, s.q[FREE_PCBS][0]);
      QuietDispatch(s, Schedule(Admit(Child(s, level), s.q[FREE_PCBS][0]), s.current));
    }
  }

  lemma QuietKill(s: State, pid: nat)
    requires Shape(s) && KillCall(s, pid).Ok?
    ensures Quiet(s, KillCall(s, pid).state)
  {
    QuietDispatch(s, Cleanup(SetEax(s, s.current, MINUS_ONE), s.current));
  }

  /** Only read, write and the UART touch the serial state. */
  lemma QuietStep(s: State, e: Event)
    requires Inv(s) && Step(s, e).Ok? && !e.Read? && !e.Receive? && !e.Write? && !e.TransmitReady?
    ensures Quiet(s, Step(s, e).state)
  {
    match e {
      case Tick => QuietTick(s);
      case Spawn(level) => QuietSpawn(s, level % 256);
      case Sleep(num) => QuietSleep(s, num % HALF);
      case Exit => QuietDispatch(s, Cleanup(s, s.current));
      case Kill(pid) => QuietKill(s, pid % HALF);
      case _ =>
    }
  }

  /** What one step does to the input stream and to the line of readers. */
  ghost predicate InputKept(s: State, e: Event, r: State)
    requires Shape(s) && Shape(r)
  {
    && s.io.input + Accepted(s, e) == Delivered(s, e, r) + r.io.input
    && s.q[READING] + Blocking(s, e) == Served(s, e) + r.q[READING]
  }

  lemma InputStep(s: State, e: Event)
    requires Inv(s) && Step(s, e).Ok?
    ensures InputKept(s, e, Step(s, e).state)
  {
    hide Placed, StatusAgrees, StacksOwned, SleepersKeyed, ShmsSingle, ReadCall, ReceiveByte;
    if e.Read? {
      InputRead(s);
    } else if e.Receive? {
      InputReceive(s, e.ch);
    } else if !e.Write? && !e.TransmitReady? {
      QuietStep(s, e);
    }
  }

  lemma InputRead(s: State)
    requires Inv(s) && ReadCall(s).Ok?
    ensures InputKept(s, Read, ReadCall(s).state)
  {
    if s.io.input == [] {
      var t := Put(SetStatus(s, s.current, Blocked), READING, s.current);
      QuietDispatch(t, t);
    }
  }

  lemma InputReceive(s: State, ch: nat)
    requires Inv(s) && ReceiveByte(s, ch).Ok?
    ensures InputKept(s, Receive(ch), ReceiveByte(s, ch).state)
  {
    if s.q[READING] != [] {
      assert s.q[READING][0] in s.q[READING];
    }
  }

  /** Bytes on the line followed by bytes still buffered grow by exactly what is written. */
  ghost predicate OutputKept(io: Sio, e: Event, io': Sio) {
    && io'.txd + io'.output == io.txd + io.output + Written(e)
    && io.txd <= io'.txd
  }

  lemma OutputStep(s: State, e: Event)
    requires Inv(s) && Step(s, e).Ok?
    ensures OutputKept(s.io, e, Step(s, e).state.io)
  {
    hide Placed, StatusAgrees, StacksOwned, SleepersKeyed, ShmsSingle;
    match e {
      case Read => OutputRead(s);
      case Write(ch) => OutputWrite(s.io, ch);
      case TransmitReady =>
        assert s.io.output != [] ==> s.io.output == [s.io.output[0]] + s.io.output[1..];
      case Receive(ch) =>
      case _ => QuietStep(s, e);
    }
  }

  lemma OutputRead(s: State)
    requires Shape(s) && ReadCall(s).Ok?
    ensures OutputKept(s.io, Read, ReadCall(s).state.io)
  {
    var t := Put(SetStatus(s, s.current, Blocked), READING, s.current);
    QuietDispatch(s.(q := t.q, pcbs := t.pcbs), t);
  }

  lemma OutputWrite(io: Sio, ch: nat)
    requires SerialOk(io) && SerialModel.Write(io, ch).Fine?
    ensures OutputKept(io, Event.Write(ch), SerialModel.Write(io, ch).sio)
  {
  }

  // -------- Over whole runs --------

  ghost function AcceptedIn(s: State, es: seq<Event>): seq<nat>
    requires Shape(s)
    decreases |es|
  {
    if es == [] then []
    else Accepted(s, es[0]) + (if Step(s, es[0]).Ok? then AcceptedIn(Step(s, es[0]).state, es[1..]) else [])
  }

  ghost function DeliveredIn(s: State, es: seq<Event>): seq<nat>
    requires Shape(s)
    decreases |es|
  {
    if es == [] then []
    else
      match Step(s, es[0])
      case Ok(t) => Delivered(s, es[0], t) + DeliveredIn(t, es[1..])
      case _ => []
  }

  ghost function BlockingIn(s: State, es: seq<Event>): seq<Id>
    requires Shape(s)
    decreases |es|
  {
    if es == [] then []
    else Blocking(s, es[0]) + (if Step(s, es[0]).Ok? then BlockingIn(Step(s, es[0]).state, es[1..]) else [])
  }

  ghost function ServedIn(s: State, es: seq<Event>): seq<Id>
    requires Shape(s)
    decreases |es|
  {
    if es == [] then []
    else Served(s, es[0]) + (if Step(s, es[0]).Ok? then ServedIn(Step(s, es[0]).state, es[1..]) else [])
  }

  ghost function WrittenIn(es: seq<Event>): seq<nat> {
    if es == [] then [] else Written(es[0]) + WrittenIn(es[1..])
  }

  lemma Regroup<T>(a: seq<T>, b: seq<T>, c: seq<T>, d: seq<T>, e: seq<T>, f: seq<T>, g: seq<T>)
    requires a + b == c + d && d + e == f + g
    ensures a + (b + e) == (c + f) + g
  {
    assert a + (b + e) == (a + b) + e == c + (d + e) == (c + f) + g;
  }

  /** Input exactly once and in order: what was buffered and accepted is what is delivered and still buffered. */
  lemma {:induction false} InputConserved(s: State, es: seq<Event>)
    requires Inv(s) && IdleSafe(s) && LawfulRun(s, es)
    ensures Run(s, es).Ok?
    ensures s.io.input + AcceptedIn(s, es) == DeliveredIn(s, es) + Run(s, es).state.io.input
    decreases |es|
  {
    if es != [] {
      LawfulStep(s, es[0]);
      var t := Step(s, es[0]).state;
      RunUnfold(s, es);
      InputStep(s, es[0]);
      InputConserved(t, es[1..]);
      Regroup(s.io.input, Accepted(s, es[0]), Delivered(s, es[0], t), t.io.input,
              AcceptedIn(t, es[1..]), DeliveredIn(t, es[1..]), Run(t, es[1..]).state.io.input);
    }
  }

  /** Blocked readers are served in the order in which they blocked. */
  lemma {:induction false} ReadersFifo(s: State, es: seq<Event>)
    requires Inv(s) && IdleSafe(s) && LawfulRun(s, es)
    ensures Run(s, es).Ok?
    ensures s.q[READING] + BlockingIn(s, es) == ServedIn(s, es) + Run(s, es).state.q[READING]
    decreases |es|
  {
    if es != [] {
      LawfulStep(s, es[0]);
      var t := Step(s, es[0]).state;
      RunUnfold(s, es);
      InputStep(s, es[0]);
      ReadersFifo(t, es[1..]);
      Regroup(s.q[READING], Blocking(s, es[0]), Served(s, es[0]), t.q[READING],
              BlockingIn(t, es[1..]), ServedIn(t, es[1..]), Run(t, es[1..]).state.q[READING]);
    }
  }

  lemma Reassociate<T>(a: seq<T>, b: seq<T>, c: seq<T>)
    ensures a + b + c == a + (b + c)
  {
  }

  /** Output stream: bytes sent followed by bytes buffered are the bytes written, with LF as CR LF. */
  lemma {:induction false} OutputConserved(s: State, es: seq<Event>)
    requires Inv(s) && IdleSafe(s) && LawfulRun(s, es)
    ensures Run(s, es).Ok?
    ensures Run(s, es).state.io.txd + Run(s, es).state.io.output == s.io.txd + s.io.output + WrittenIn(es)
    decreases |es|
  {
    if es == [] {
      assert s.io.txd + s.io.output + [] == s.io.txd + s.io.output;
    } else {
      LawfulStep(s, es[0]);
      var t := Step(s, es[0]).state;
      RunUnfold(s, es);
      OutputStep(s, es[0]);
      OutputConserved(t, es[1..]);
      Reassociate(s.io.txd + s.io.output, Written(es[0]), WrittenIn(es[1..]));
    }
  }

  // -------- Output goes out --------

  function Transmits(es: seq<Event>): nat {
    if es == [] then 0 else (if es[0].TransmitReady? then 1 else 0) + Transmits(es[1..])
  }

  predicate NoWrites(es: seq<Event>) {
    forall i :: 0 <= i < |es| ==> !es[i].Write?
  }

  /** `n` transmitter events later: that many bytes more on the line, and the buffer reset once there are none left. */
  ghost predicate SentOn(io: Sio, io': Sio, n: nat) {
    if !io.sending then
      io'.txd == io.txd && io'.output == io.output && !io'.sending && io'.queued == io.queued
    else if n <= |io.output| then
      io'.txd == io.txd + io.output[..n] && io'.output == io.output[n..] && io'.sending && io'.queued == io.queued
    else io'.txd == io.txd + io.output && io'.output == [] && !io'.sending && io'.queued == 0
  }

  /** One event other than a write. */
  lemma OutputMoves(s: State, e: Event)
    requires Inv(s) && Step(s, e).Ok? && !e.Write?
    ensures SentOn(s.io, Step(s, e).state.io, if e.TransmitReady? then 1 else 0)
  {
    hide Placed, StatusAgrees, StacksOwned, SleepersKeyed, ShmsSingle, ReadCall;
    assert s.io.output[..0] == [] && s.io.output[0..] == s.io.output && s.io.txd + [] == s.io.txd;
    match e {
      case Read => ReadKeepsOutput(s);
      case TransmitReady => assert s.io.output != [] ==> s.io.output[..1] == [s.io.output[0]];
      case Receive(ch) =>
      case _ => QuietStep(s, e);
    }
  }

  lemma ReadKeepsOutput(s: State)
    requires Shape(s) && ReadCall(s).Ok?
    ensures var io := ReadCall(s).state.io;
            io.txd == s.io.txd && io.output == s.io.output && io.sending == s.io.sending && io.queued == s.io.queued
  {
    var t := Put(SetStatus(s, s.current, Blocked), READING, s.current);
    QuietDispatch(s.(q := t.q, pcbs := t.pcbs), t);
  }

  lemma SentInTurn(io: Sio, io1: Sio, io2: Sio, m: nat, n: nat)
    requires SentOn(io, io1, m) && SentOn(io1, io2, n) && m <= 1
    requires !io.sending ==> io.output == []
    ensures SentOn(io, io2, m + n)
  {
    if io.sending && m + n <= |io.output| {
      assert io.output[m..][..n] == io.output[m..m + n] && io.output[..m + n] == io.output[..m] + io.output[m..m + n];
      assert io.output[m..][n..] == io.output[m + n..];
    } else if io.sending && m <= |io.output| {
      assert io.output == io.output[..m] + io.output[m..];
    }
  }

  /**
   * Output goes out: in a lawful run without writes every transmitter event puts the next buffered byte on the line,
   * and the one after the last stops the transmission and resets the buffer.
   */
  lemma {:induction false} OutputProgress(s: State, es: seq<Event>)
    requires Inv(s) && IdleSafe(s) && LawfulRun(s, es) && NoWrites(es)
    ensures Run(s, es).Ok? && SentOn(s.io, Run(s, es).state.io, Transmits(es))
    decreases |es|
  {
    hide Placed, StatusAgrees, StacksOwned, SleepersKeyed, ShmsSingle, Step, SentOn, IdleSafe;
    if es == [] {
      SentNothing(s.io);
    } else {
      LawfulStep(s, es[0]);
      RunUnfold(s, es);
      var t := Step(s, es[0]).state;
      OutputMoves(s, es[0]);
      OutputProgress(t, es[1..]);
      SentInTurn(s.io, t.io, Run(s, es).state.io, if es[0].TransmitReady? then 1 else 0, Transmits(es[1..]));
    }
  }

  lemma SentNothing(io: Sio)
    ensures SentOn(io, io, 0)
  {
    assert io.output[..0] == [] && io.output[0..] == io.output && io.txd + [] == io.txd;
  }

  /** Once the transmitter has been ready for every buffered byte and once more, there is room for any write. */
  lemma RoomAfterSending(s: State, es: seq<Event>, ch: nat)
    requires Inv(s) && IdleSafe(s) && LawfulRun(s, es) && NoWrites(es) && Transmits(es) > |s.io.output|
    ensures Run(s, es).Ok? && RoomFor(Run(s, es).state, Write(ch)) && Run(s, es).state.io.txd == s.io.txd + s.io.output
  {
    OutputProgress(s, es);
    assert !s.io.sending ==> s.io.txd + s.io.output == s.io.txd;
  }

  /** A write while nothing is being sent puts its first byte on the line at once; any other write only queues. */
  lemma WriteStarts(s: State, ch: nat)
    requires Inv(s) && Step(s, Write(ch)).Ok?
    ensures var io, bytes := Step(s, Write(ch)).state.io, if ch == 10 then [13, 10] else [ch % 256];
            && io.sending
            && (!s.io.sending ==> io.txd == s.io.txd + bytes[..1] && io.output == bytes[1..])
            && (s.io.sending ==> io.txd == s.io.txd && io.output == s.io.output + bytes)
  {
  }

  /** The reader at place `j` of the line gets the character handed over as number `j`, or is that far from it yet. */
  lemma NthReaderServed(s: State, es: seq<Event>, j: nat)
    requires Inv(s) && IdleSafe(s) && LawfulRun(s, es) && j < |s.q[READING]|
    ensures Run(s, es).Ok?
    ensures var served, line := ServedIn(s, es), Run(s, es).state.q[READING];
            if j < |served| then served[j] == s.q[READING][j]
            else j - |served| < |line| && line[j - |served|] == s.q[READING][j]
  {
    hide Placed, StatusAgrees, StacksOwned, SleepersKeyed, ShmsSingle, LawfulRun, Run, IdleSafe, ServedIn, BlockingIn;
    ReadersFifo(s, es);
    PlaceInSplit(s.q[READING], BlockingIn(s, es), ServedIn(s, es), Run(s, es).state.q[READING], j);
  }

  lemma PlaceInSplit<T>(a: seq<T>, b: seq<T>, c: seq<T>, d: seq<T>, j: nat)
    requires a + b == c + d && j < |a|
    ensures if j < |c| then c[j] == a[j] else j - |c| < |d| && d[j - |c|] == a[j]
  {
    assert (a + b)[j] == a[j] && (c + d)[j] == a[j];
  }

  // -------- The limit of the linear input buffer --------

  /** `n` rounds of a character that comes in and a read that takes one out, and one character more. */
  ghost function Dribble(n: nat): (es: seq<Event>)
    ensures |es| == 2 * n + 1
  {
    if n == 0 then [Receive(LF)] else [Receive(LF), Read] + Dribble(n - 1)
  }

  /** One character waits and nobody reads; so many bytes of the buffer have been used. */
  ghost predicate OneWaits(s: State, stored: nat) {
    Shape(s) && s.q[READING] == [] && |s.io.input| == 1 && s.io.stored == stored
  }

  /** One round: two characters are waiting in between, and the buffer does not drain, so its pointers go on. */
  lemma DribbleRound(s: State, stored: nat)
    requires OneWaits(s, stored) && stored < BUF_SIZE
    ensures var a := Step(s, Receive(LF));
            && a.Ok? && |a.state.io.input| == 2
            && var b := Step(a.state, Read); b.Ok? && OneWaits(b.state, stored + 1)
  {
  }

  /** With never more than two characters waiting, the buffer overruns when 1024 bytes have been stored. */
  lemma {:induction false} DribbleOverruns(s: State, n: nat)
    requires n <= BUF_SIZE && OneWaits(s, BUF_SIZE - n)
    ensures Run(s, Dribble(n)) == Overrun
    decreases n
  {
    var es := Dribble(n);
    if n == 0 {
      assert Step(s, es[0]) == Overrun;
    } else {
      DribbleRound(s, BUF_SIZE - n);
      var a := Step(s, es[0]).state;
      var b := Step(a, Read).state;
      assert es[1..] == [Read] + Dribble(n - 1) && es[1..][1..] == Dribble(n - 1);
      RunUnfold(s, es);
      RunUnfold(a, es[1..]);
      DribbleOverruns(b, n - 1);
    }
  }
}
