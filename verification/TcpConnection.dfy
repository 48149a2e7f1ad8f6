/** Egress of a TCP connection: any number of threads reserve bytes with a
    compare-and-swap loop and post their buffers to the connection's strand, which
    owns the write queue and the close flags. A step of a thread makes one atomic
    access; a step of the strand is one handler, except that closing releases the
    queued bytes one buffer at a time. */
module TcpConnection {

  // ---------------------------------------------------------------- the strand's own state

  /** Whether a graceful close has been asked for; if so how many sends were posted
      before it, and whether it found the connection free of overflow. */
  datatype Grace = NotAsked | Asked(mark: nat, lossless: bool)

  datatype Phase = Free | Releasing(rest: seq<nat>)

  /** Buffers are known by the number of their send. `accepted` and `written` are
      the histories of the write queue and of the socket; `outstanding` holds the
      asynchronous writes whose handler has not run. */
  datatype Strand = Strand(
    queue: seq<nat>,
    outstanding: seq<nat>,
    graceful: Grace,
    shutdowns: nat,
    closed: bool,
    open: bool,
    phase: Phase,
    accepted: seq<nat>,
    written: seq<nat>,
    callbacks: nat)

  function NewStrand(): Strand { Strand([], [], NotAsked, 0, false, true, Free, [], [], 0) }

  /** Closing takes the queue away; its bytes are then released one by one. */
  function Close(t: Strand): Strand
  {
    if t.closed then t else t.(closed := true, open := false, phase := Releasing(t.queue), queue := [])
  }

  /** The strand once closing, if it has begun, is complete. */
  function Settle(t: Strand): Strand
  {
    if t.phase.Releasing? then t.(phase := Free, callbacks := t.callbacks + 1) else t
  }

  function ShutdownSend(t: Strand, failed: bool): Strand
  {
    var t1 := t.(shutdowns := t.shutdowns + 1);
    if failed then Close(t1) else t1
  }

  function Stop(t: Strand, force: bool, grace: Grace, failed: bool): Strand
  {
    if t.closed || (!force && t.graceful.Asked?) then t
    else if !t.open || force then Close(t)
    else
      var t1 := t.(graceful := grace);
      if t.queue != [] then t1 else ShutdownSend(t1, failed)
  }

  function WriteNext(t: Strand): Strand
    requires t.queue != []
  {
    t.(outstanding := t.outstanding + [t.queue[0]])
  }

  /** A buffer that send_impl does not turn away. */
  function Accept(t: Strand, i: nat): Strand
  {
    var t1 := t.(queue := t.queue + [i], accepted := t.accepted + [i]);
    if t.queue != [] then t1 else WriteNext(t1)
  }

  predicate Turned(t: Strand, overflowed: bool)
  {
    t.closed || t.graceful.Asked? || overflowed || !t.open
  }

  /** Buffer `first` has been written and the front leaves the queue. */
  function Popped(t: Strand, first: nat, failed: bool): Strand
    requires t.queue != []
  {
    var t1 := t.(queue := t.queue[1..], written := t.written + [first]);
    if t1.queue != [] then WriteNext(t1)
    else if t.graceful.Asked? then ShutdownSend(t1, failed)
    else t1
  }

  /** The handler of the write that was outstanding first. */
  function Wrote(t: Strand, error: bool, failed: bool): Strand
    requires t.outstanding != []
  {
    var t1 := t.(outstanding := t.outstanding[1..]);
    if t.closed then t1
    else if error then Close(t1)
    else if t.queue == [] then t1
    else Popped(t1, t.outstanding[0], failed)
  }

  // ---------------------------------------------------------------- threads

  /** Where a `send` is: loading the overflow flag, loading the counter, swapping,
      checking the flag again, undoing, raising the flag, stopping the connection,
      posting; then its buffer is on the strand, in the queue, or done with. */
  datatype Pc = Check | Load | Swap(expected: int) | Recheck | Undo | Refuse | ForceStop | Post
    | OnStrand | InQueue | Ended

  datatype Send = Send(size: nat, pc: Pc)

  datatype Task = SendTask(id: nat) | StopTask(force: bool, mark: nat)

  datatype State = State(
    limit: nat,
    pending: int,
    overflowed: bool,
    sends: seq<Send>,
    tasks: seq<Task>,
    posted: seq<nat>,
    taken: nat,          // posted sends whose handler has run
    strand: Strand)

  datatype Label =
    | Call(size: nat)
    | Thread(id: nat, spurious: bool, inline: bool)
    | StopCall(force: bool, inline: bool)
    | StrandStep(failed: bool)
    | WriteDone(error: bool, failed: bool)
    | ReadError

  function Start(limit: nat): State { State(limit, 0, false, [], [], [], 0, NewStrand()) }

  predicate Fits(size: nat, pending: int, limit: nat) { size <= limit && pending <= limit - size }

  /** Put send `i` at `pc`, and let the counter become `pending`. */
  function Go(s: State, i: nat, pc: Pc, pending: int): State
    requires i < |s.sends|
  {
    s.(sends := s.sends[i := s.sends[i].(pc := pc)], pending := pending)
  }

  /** A forced stop is dispatched: run at once on the strand, posted otherwise. */
  function ForcedStop(s: State, inline: bool): State
  {
    if inline && s.strand.phase.Free? then s.(strand := Close(s.strand))
    else s.(tasks := s.tasks + [StopTask(true, |s.posted|)])
  }

  /** The buffer of send `i` is posted. */
  function Posted(s: State, i: nat): State
    requires i < |s.sends|
  {
    Go(s, i, OnStrand, s.pending).(tasks := s.tasks + [SendTask(i)], posted := s.posted + [i])
  }

  /** The first refused send raises the flag and goes on to stop the connection. */
  function Refused(s: State, i: nat): State
    requires i < |s.sends|
  {
    if s.overflowed then Go(s, i, Ended, s.pending) else Go(s, i, ForceStop, s.pending).(overflowed := true)
  }

  function ThreadStep(s: State, i: nat, spurious: bool, inline: bool): State
    requires i < |s.sends|
  {
    var x := s.sends[i];
    match x.pc
    case Check => Go(s, i, if s.overflowed then Refuse else Load, s.pending)
    case Load => Go(s, i, Swap(s.pending), s.pending)
    case Swap(expected) =>
      if !Fits(x.size, expected, s.limit) then Go(s, i, Refuse, s.pending)
      else if s.pending == expected && !spurious then Go(s, i, Recheck, s.pending + x.size)
      else Go(s, i, Swap(s.pending), s.pending)
    case Recheck => Go(s, i, if s.overflowed then Undo else Post, s.pending)
    case Undo => Go(s, i, Refuse, s.pending - x.size)
    case Refuse => Refused(s, i)
    case ForceStop => ForcedStop(Go(s, i, Ended, s.pending), inline)
    case Post => Posted(s, i)
    case _ => s
  }

  function Release(s: State, i: nat): State
    requires i < |s.sends|
  {
    Go(s, i, Ended, s.pending - s.sends[i].size)
  }

  /** A posted send's handler. */
  function TakeSend(s: State, i: nat): State
    requires s.tasks != [] && i < |s.sends|
  {
    var s1 := s.(tasks := s.tasks[1..], taken := s.taken + 1);
    if Turned(s.strand, s.overflowed) then Release(s1, i)
    else Go(s1, i, InQueue, s.pending).(strand := Accept(s.strand, i))
  }

  /** Closing gives back the bytes of one more buffer, or is complete. */
  function GoOnClosing(s: State, rest: seq<nat>): State
  {
    if rest == [] then s.(strand := s.strand.(phase := Free, callbacks := s.strand.callbacks + 1))
    else if rest[0] >= |s.sends| then s
    else Release(s, rest[0]).(strand := s.strand.(phase := Releasing(rest[1..])))
  }

  /** The strand takes its first task, or goes on releasing what closing left. */
  function RunStrand(s: State, failed: bool): State
  {
    if s.strand.phase.Releasing? then GoOnClosing(s, s.strand.phase.rest)
    else if s.tasks == [] then s
    else
      match s.tasks[0]
      case SendTask(i) => if i >= |s.sends| then s else TakeSend(s, i)
      case StopTask(force, mark) =>
        s.(tasks := s.tasks[1..], strand := Stop(s.strand, force, Asked(mark, !s.overflowed), failed))
  }

  /** A successful write releases the bytes of the queue's front. */
  function RunWritten(s: State, error: bool, failed: bool): State
  {
    if !s.strand.phase.Free? || s.strand.outstanding == [] then s
    else
      var t := s.strand;
      if t.closed || error || t.queue == [] || t.queue[0] >= |s.sends| then s.(strand := Wrote(t, error, failed))
      else Release(s, t.queue[0]).(strand := Wrote(t, error, failed))
  }

  function Next(s: State, l: Label): State
  {
    match l
    case Call(size) => s.(sends := s.sends + [Send(size, Check)])
    case Thread(i, spurious, inline) => if i < |s.sends| then ThreadStep(s, i, spurious, inline) else s
    case StopCall(force, inline) =>
      if force then ForcedStop(s, inline) else s.(tasks := s.tasks + [StopTask(false, |s.posted|)])
    case StrandStep(failed) => RunStrand(s, failed)
    case WriteDone(error, failed) => RunWritten(s, error, failed)
    case ReadError => if s.strand.phase.Free? then s.(strand := Close(s.strand)) else s
  }

  function Run(s: State, labels: seq<Label>): State
    decreases |labels|
  {
    if labels == [] then s else Run(Next(s, labels[0]), labels[1..])
  }

  // ---------------------------------------------------------------- bytes held

  /** The bytes that a send holds while its thread is still in the call. */
  function InHand(x: Send): nat
  {
    if x.pc.Recheck? || x.pc.Undo? || x.pc.Post? then x.size else 0
  }

  function AllInHand(sends: seq<Send>): nat
  {
    if sends == [] then 0 else InHand(sends[0]) + AllInHand(sends[1..])
  }

  function SizeOf(i: nat, sends: seq<Send>): nat
  {
    if i < |sends| then sends[i].size else 0
  }

  /** The bytes of the buffers in `ids`. */
  function BytesOf(ids: seq<nat>, sends: seq<Send>): nat
  {
    if ids == [] then 0 else SizeOf(ids[0], sends) + BytesOf(ids[1..], sends)
  }

  lemma {:induction false} InHandUpdate(sends: seq<Send>, i: nat, x: Send)
    requires i < |sends|
    ensures AllInHand(sends[i := x]) == AllInHand(sends) - InHand(sends[i]) + InHand(x)
    decreases |sends|
  {
    if i == 0 {
      assert sends[i := x][1..] == sends[1..];
    } else {
      assert sends[i := x][1..] == sends[1..][i - 1 := x];
      InHandUpdate(sends[1..], i - 1, x);
    }
  }

  lemma {:induction false} InHandCall(sends: seq<Send>, x: Send)
    ensures AllInHand(sends + [x]) == AllInHand(sends) + InHand(x)
    decreases |sends|
  {
    if sends == [] {
      assert (sends + [x])[1..] == [];
    } else {
      assert (sends + [x])[1..] == sends[1..] + [x];
      InHandCall(sends[1..], x);
    }
  }

  lemma {:induction false} NoneInHand(sends: seq<Send>)
    requires forall i :: 0 <= i < |sends| ==> InHand(sends[i]) == 0
    ensures AllInHand(sends) == 0
    decreases |sends|
  {
    if sends != [] {
      NoneInHand(sends[1..]);
    }
  }

  lemma {:induction false} BytesSame(ids: seq<nat>, sends: seq<Send>, sends': seq<Send>)
    requires forall k :: 0 <= k < |ids| ==> SizeOf(ids[k], sends') == SizeOf(ids[k], sends)
    ensures BytesOf(ids, sends') == BytesOf(ids, sends)
    decreases |ids|
  {
    if ids != [] {
      BytesSame(ids[1..], sends, sends');
    }
  }

  lemma {:induction false} BytesAppend(ids: seq<nat>, i: nat, sends: seq<Send>)
    ensures BytesOf(ids + [i], sends) == BytesOf(ids, sends) + SizeOf(i, sends)
    decreases |ids|
  {
    if ids == [] {
      assert (ids + [i])[1..] == [];
    } else {
      assert (ids + [i])[1..] == ids[1..] + [i];
      BytesAppend(ids[1..], i, sends);
    }
  }

  // ---------------------------------------------------------------- invariants

  /** The write queue drains in order through one write at a time; send-shutdown
      happens at most once, when everything accepted has been written; and the close
      callback runs once, when closing is complete. */
  ghost predicate StrandOk(t: Strand)
  {
    && (t.closed ==> t.queue == [] && |t.outstanding| <= 1)
    && (!t.closed ==>
          && t.open && t.phase.Free?
          && t.outstanding == (if t.queue == [] then [] else [t.queue[0]])
          && t.written + t.queue == t.accepted
          && (t.graceful.Asked? && t.queue == [] ==> t.shutdowns == 1))
    && t.written <= t.accepted
    && t.shutdowns <= 1
    && (t.shutdowns == 1 ==> t.graceful.Asked? && t.queue == [] && t.written == t.accepted)
    && t.callbacks == (if t.closed && t.phase.Free? then 1 else 0)
  }

  /** What is accepted is a prefix of what was posted, and exactly what was posted
      before a graceful close that found no overflow. */
  ghost predicate InOrder(t: Strand, posted: seq<nat>, taken: nat, overflowed: bool)
  {
    && t.accepted <= posted && |t.accepted| <= taken <= |posted|
    && (t.graceful.NotAsked? && !t.closed && !overflowed ==> |t.accepted| == taken)
    && (t.graceful.Asked? ==> |t.accepted| <= t.graceful.mark <= taken)
    && (t.graceful.Asked? && t.graceful.lossless ==> |t.accepted| == t.graceful.mark)
  }

  /** Queued are the posted sends not yet taken, in order, and each stop stands
      where as many sends had been posted as its mark says. */
  predicate Fifo(tasks: seq<Task>, posted: seq<nat>, taken: nat)
    decreases |tasks|
  {
    if tasks == [] then taken == |posted|
    else match tasks[0]
      case SendTask(i) => taken < |posted| && posted[taken] == i && Fifo(tasks[1..], posted, taken + 1)
      case StopTask(_, mark) => mark == taken && Fifo(tasks[1..], posted, taken)
  }

  /** The posted sends whose handler has not run. */
  function Waiting(posted: seq<nat>, taken: nat): seq<nat>
  {
    if taken <= |posted| then posted[taken..] else []
  }

  function Queued(t: Strand): seq<nat>
  {
    if t.phase.Releasing? then t.phase.rest else t.queue
  }

  /** The buffers in `ids` are different ones, all of sends that are at `pc`. */
  ghost predicate AllAt(ids: seq<nat>, sends: seq<Send>, pc: Pc)
  {
    && (forall i, j :: 0 <= i < j < |ids| ==> ids[i] != ids[j])
    && (forall k :: 0 <= k < |ids| ==> ids[k] < |sends| && sends[ids[k]].pc == pc)
  }

  /** Every reserved byte is a thread's in its call, a posted buffer's or a queued
      one's. */
  predicate Conserved(pending: int, limit: nat, waiting: seq<nat>, queued: seq<nat>, sends: seq<Send>)
  {
    pending == AllInHand(sends) + BytesOf(waiting, sends) + BytesOf(queued, sends) && pending <= limit
  }

  /** Some thread is about to stop the connection by force, or has posted it. */
  ghost predicate StopComes(sends: seq<Send>, tasks: seq<Task>)
  {
    || (exists i :: 0 <= i < |sends| && sends[i].pc.ForceStop?)
    || (exists k :: 0 <= k < |tasks| && tasks[k].StopTask? && tasks[k].force)
  }

  /** The strand's handlers have run in order so far. */
  ghost predicate Flows(t: Strand, tasks: seq<Task>, posted: seq<nat>, taken: nat, overflowed: bool)
  {
    StrandOk(t) && InOrder(t, posted, taken, overflowed) && Fifo(tasks, posted, taken)
  }

  /** Posted and queued sends are where their buffers are. */
  ghost predicate Placed(waiting: seq<nat>, queued: seq<nat>, sends: seq<Send>)
  {
    AllAt(waiting, sends, OnStrand) && AllAt(queued, sends, InQueue)
  }

  ghost predicate Books(pending: int, limit: nat, waiting: seq<nat>, queued: seq<nat>, sends: seq<Send>)
  {
    Conserved(pending, limit, waiting, queued, sends) && Placed(waiting, queued, sends)
  }

  ghost predicate FlowsIn(s: State)
  {
    Flows(s.strand, s.tasks, s.posted, s.taken, s.overflowed)
  }

  ghost predicate BooksIn(s: State)
  {
    Books(s.pending, s.limit, Waiting(s.posted, s.taken), Queued(s.strand), s.sends)
  }

  ghost predicate Inv(s: State)
  {
    FlowsIn(s) && BooksIn(s)
  }

  // ---------------------------------------------------------------- the strand's handlers

  lemma CloseOk(t: Strand)
    requires StrandOk(t) && t.phase.Free?
    ensures StrandOk(Close(t)) && StrandOk(Settle(Close(t))) && Queued(Close(t)) == Queued(t) && Close(t).closed
  {
  }

  lemma StopOk(t: Strand, force: bool, grace: Grace, failed: bool)
    requires StrandOk(t) && t.phase.Free? && grace.Asked?
    ensures var t' := Stop(t, force, grace, failed);
      && StrandOk(t') && StrandOk(Settle(t')) && Queued(t') == Queued(t) && (t.closed || force ==> t'.closed)
  {
    if !t.closed && t.queue == [] {
      assert t.written == t.written + t.queue;
    }
  }

  lemma AcceptOk(t: Strand, i: nat)
    requires StrandOk(t) && !Turned(t, false)
    ensures StrandOk(Accept(t, i)) && Queued(Accept(t, i)) == Queued(t) + [i] && !Accept(t, i).closed
  {
    assert t.written + (t.queue + [i]) == t.accepted + [i];
  }

  lemma WroteOk(t: Strand, error: bool, failed: bool)
    requires StrandOk(t) && t.phase.Free? && t.outstanding != []
    ensures var t' := Wrote(t, error, failed);
      && StrandOk(t') && StrandOk(Settle(t')) && (t.closed ==> t'.closed)
      && Queued(t') == if t.closed || error then Queued(t) else Queued(t)[1..]
  {
    if !t.closed && !error {
      assert t.queue == [t.queue[0]] + t.queue[1..];
      assert t.written + [t.queue[0]] + t.queue[1..] == t.written + t.queue;
      assert t.queue[1..] == [] ==> t.written + [t.queue[0]] == t.accepted;
      assert t.written + [t.queue[0]] <= t.accepted;
    }
  }

  lemma StopInOrder(t: Strand, force: bool, posted: seq<nat>, taken: nat, overflowed: bool, failed: bool)
    requires InOrder(t, posted, taken, overflowed)
    ensures InOrder(Stop(t, force, Asked(taken, !overflowed), failed), posted, taken, overflowed)
  {
  }

  lemma AcceptInOrder(t: Strand, posted: seq<nat>, taken: nat)
    requires InOrder(t, posted, taken, false) && !Turned(t, false) && taken < |posted|
    ensures InOrder(Accept(t, posted[taken]), posted, taken + 1, false)
  {
  }

  lemma WroteInOrder(t: Strand, error: bool, failed: bool, posted: seq<nat>, taken: nat, overflowed: bool)
    requires InOrder(t, posted, taken, overflowed) && t.outstanding != []
    ensures InOrder(Wrote(t, error, failed), posted, taken, overflowed)
  {
  }

  // ---------------------------------------------------------------- what is posted

  lemma {:induction false} FifoPost(tasks: seq<Task>, posted: seq<nat>, taken: nat, t: Task, more: seq<nat>)
    requires Fifo(tasks, posted, taken)
    requires t.StopTask? ==> t.mark == |posted| && more == []
    requires t.SendTask? ==> more == [t.id]
    ensures Fifo(tasks + [t], posted + more, taken)
    decreases |tasks|
  {
    if tasks == [] {
      assert (tasks + [t])[0] == t && (tasks + [t])[1..] == [];
    } else {
      assert (tasks + [t])[0] == tasks[0] && (tasks + [t])[1..] == tasks[1..] + [t];
      FifoPost(tasks[1..], posted, if tasks[0].SendTask? then taken + 1 else taken, t, more);
    }
  }

  lemma FlowsPost(t: Strand, tasks: seq<Task>, posted: seq<nat>, taken: nat, overflowed: bool, task: Task, more: seq<nat>)
    requires Flows(t, tasks, posted, taken, overflowed)
    requires task.StopTask? ==> task.mark == |posted| && more == []
    requires task.SendTask? ==> more == [task.id]
    ensures Flows(t, tasks + [task], posted + more, taken, overflowed)
    ensures Waiting(posted + more, taken) == Waiting(posted, taken) + more
  {
    FifoPost(tasks, posted, taken, task, more);
  }

  /** The first posted send is the first task that is one. */
  lemma WaitingFirst(t: Strand, tasks: seq<Task>, posted: seq<nat>, taken: nat, overflowed: bool)
    requires Flows(t, tasks, posted, taken, overflowed) && tasks != [] && tasks[0].SendTask?
    ensures Waiting(posted, taken) != [] && Waiting(posted, taken)[0] == tasks[0].id
    ensures Waiting(posted, taken + 1) == Waiting(posted, taken)[1..]
  {
  }

  lemma FlowsTurn(t: Strand, tasks: seq<Task>, posted: seq<nat>, taken: nat, overflowed: bool)
    requires Flows(t, tasks, posted, taken, overflowed) && tasks != [] && tasks[0].SendTask? && Turned(t, overflowed)
    ensures Flows(t, tasks[1..], posted, taken + 1, overflowed)
  {
  }

  lemma FlowsAccept(t: Strand, tasks: seq<Task>, posted: seq<nat>, taken: nat, t': Strand)
    requires Flows(t, tasks, posted, taken, false) && tasks != [] && tasks[0].SendTask? && !Turned(t, false)
    requires t' == Accept(t, tasks[0].id)
    ensures Flows(t', tasks[1..], posted, taken + 1, false) && Queued(t') == Queued(t) + [tasks[0].id]
  {
    AcceptOk(t, tasks[0].id);
    AcceptInOrder(t, posted, taken);
  }

  lemma FlowsStop(t: Strand, tasks: seq<Task>, posted: seq<nat>, taken: nat, overflowed: bool, failed: bool)
    requires Flows(t, tasks, posted, taken, overflowed) && tasks != [] && tasks[0].StopTask? && t.phase.Free?
    ensures var t' := Stop(t, tasks[0].force, Asked(tasks[0].mark, !overflowed), failed);
      Flows(t', tasks[1..], posted, taken, overflowed) && Queued(t') == Queued(t)
  {
    StopOk(t, tasks[0].force, Asked(taken, !overflowed), failed);
    StopInOrder(t, tasks[0].force, posted, taken, overflowed, failed);
  }

  lemma FlowsWrote(t: Strand, tasks: seq<Task>, posted: seq<nat>, taken: nat, overflowed: bool, error: bool, failed: bool)
    requires Flows(t, tasks, posted, taken, overflowed) && t.phase.Free? && t.outstanding != []
    ensures Flows(Wrote(t, error, failed), tasks, posted, taken, overflowed)
    ensures Queued(Wrote(t, error, failed)) == if t.closed || error then Queued(t) else Queued(t)[1..]
    ensures !t.closed ==> t.queue != []
  {
    WroteOk(t, error, failed);
    WroteInOrder(t, error, failed, posted, taken, overflowed);
  }

  // ---------------------------------------------------------------- who is where, with which bytes

  /** Send `i` moves and is not among `ids`, or moves to where they are. */
  lemma AllAtOther(ids: seq<nat>, sends: seq<Send>, i: nat, x: Send, pc: Pc)
    requires AllAt(ids, sends, pc) && i < |sends| && sends[i].pc != pc
    ensures AllAt(ids, sends[i := x], pc) && (x.pc == pc ==> AllAt(ids + [i], sends[i := x], pc))
  {
  }

  lemma AllAtDrop(ids: seq<nat>, sends: seq<Send>, x: Send, pc: Pc)
    requires AllAt(ids, sends, pc) && ids != []
    ensures ids[0] < |sends| && sends[ids[0]].pc == pc && AllAt(ids[1..], sends[ids[0] := x], pc)
  {
  }

  /** What send `i` does to the books when it becomes `x`. */
  lemma SameBytes(waiting: seq<nat>, queued: seq<nat>, sends: seq<Send>, i: nat, x: Send)
    requires i < |sends| && x.size == sends[i].size
    ensures AllInHand(sends[i := x]) == AllInHand(sends) - InHand(sends[i]) + InHand(x)
    ensures BytesOf(waiting, sends[i := x]) == BytesOf(waiting, sends)
    ensures BytesOf(queued, sends[i := x]) == BytesOf(queued, sends)
  {
    InHandUpdate(sends, i, x);
    BytesSame(waiting, sends, sends[i := x]);
    BytesSame(queued, sends, sends[i := x]);
  }

  /** The first posted send is done with. */
  lemma LeaveStrand(pending: int, limit: nat, waiting: seq<nat>, queued: seq<nat>, sends: seq<Send>, i: nat, x: Send, pending': int)
    requires Books(pending, limit, waiting, queued, sends) && waiting != [] && i == waiting[0]
    requires i < |sends| && x == Send(sends[i].size, Ended)
    requires pending' == pending - x.size
    ensures Books(pending', limit, waiting[1..], queued, sends[i := x])
  {
    AllAtDrop(waiting, sends, x, OnStrand);
    AllAtOther(queued, sends, i, x, InQueue);
    SameBytes(waiting[1..], queued, sends, i, x);
  }

  /** The first posted send joins the queue. */
  lemma JoinQueue(pending: int, limit: nat, waiting: seq<nat>, queued: seq<nat>, sends: seq<Send>, i: nat, x: Send)
    requires Books(pending, limit, waiting, queued, sends) && waiting != [] && i == waiting[0]
    requires i < |sends| && x == Send(sends[i].size, InQueue)
    ensures Books(pending, limit, waiting[1..], queued + [i], sends[i := x])
  {
    AllAtDrop(waiting, sends, x, OnStrand);
    AllAtOther(queued, sends, i, x, InQueue);
    SameBytes(waiting[1..], queued, sends, i, x);
    BytesAppend(queued, i, sends[i := x]);
  }

  /** The first queued send is done with. */
  lemma LeaveQueue(pending: int, limit: nat, waiting: seq<nat>, queued: seq<nat>, sends: seq<Send>, i: nat, x: Send, pending': int)
    requires Books(pending, limit, waiting, queued, sends) && queued != [] && i == queued[0]
    requires i < |sends| && x == Send(sends[i].size, Ended)
    requires pending' == pending - x.size
    ensures Books(pending', limit, waiting, queued[1..], sends[i := x])
  {
    AllAtDrop(queued, sends, x, InQueue);
    AllAtOther(waiting, sends, i, x, OnStrand);
    SameBytes(waiting, queued[1..], sends, i, x);
  }

  predicate Outside(pc: Pc) { !pc.OnStrand? && !pc.InQueue? }

  /** A send moves on outside the strand. */
  lemma StayOutside(pending: int, limit: nat, waiting: seq<nat>, queued: seq<nat>, sends: seq<Send>, i: nat, x: Send, pending': int)
    requires Books(pending, limit, waiting, queued, sends) && i < |sends| && Outside(sends[i].pc) && Outside(x.pc)
    requires x.size == sends[i].size && pending' == pending - InHand(sends[i]) + InHand(x) && pending' <= limit
    ensures Books(pending', limit, waiting, queued, sends[i := x])
  {
    AllAtOther(waiting, sends, i, x, OnStrand);
    AllAtOther(queued, sends, i, x, InQueue);
    SameBytes(waiting, queued, sends, i, x);
  }

  /** A send posts its buffer. */
  lemma EnterStrand(pending: int, limit: nat, waiting: seq<nat>, queued: seq<nat>, sends: seq<Send>, i: nat, x: Send)
    requires Books(pending, limit, waiting, queued, sends) && i < |sends| && sends[i].pc.Post?
    requires x == Send(sends[i].size, OnStrand)
    ensures Books(pending, limit, waiting + [i], queued, sends[i := x])
  {
    AllAtOther(waiting, sends, i, x, OnStrand);
    AllAtOther(queued, sends, i, x, InQueue);
    SameBytes(waiting, queued, sends, i, x);
    BytesAppend(waiting, i, sends[i := x]);
  }

  /** A new call. */
  lemma EnterCall(pending: int, limit: nat, waiting: seq<nat>, queued: seq<nat>, sends: seq<Send>, x: Send)
    requires Books(pending, limit, waiting, queued, sends) && x.pc.Check?
    ensures Books(pending, limit, waiting, queued, sends + [x])
  {
    InHandCall(sends, x);
    BytesSame(waiting, sends, sends + [x]);
    BytesSame(queued, sends, sends + [x]);
  }

  // ---------------------------------------------------------------- thread steps

  /** A step of send `i` outside the strand and its queue. */
  lemma GoKeeps(s: State, i: nat, pc: Pc, pending: int)
    requires Inv(s) && i < |s.sends|
    requires Outside(s.sends[i].pc) && Outside(pc)
    requires pending == s.pending - InHand(s.sends[i]) + InHand(Send(s.sends[i].size, pc)) && pending <= s.limit
    ensures Inv(Go(s, i, pc, pending))
  {
    var x := s.sends[i].(pc := pc);
    StayOutside(s.pending, s.limit, Waiting(s.posted, s.taken), Queued(s.strand), s.sends, i, x, pending);
  }

  lemma PostFlows(s: State, i: nat)
    requires FlowsIn(s) && i < |s.sends|
    ensures FlowsIn(Posted(s, i)) && Waiting(s.posted + [i], s.taken) == Waiting(s.posted, s.taken) + [i]
  {
    FlowsPost(s.strand, s.tasks, s.posted, s.taken, s.overflowed, SendTask(i), [i]);
  }

  lemma PostBooks(s: State, i: nat)
    requires BooksIn(s) && i < |s.sends| && s.sends[i].pc.Post?
    requires Waiting(s.posted + [i], s.taken) == Waiting(s.posted, s.taken) + [i]
    ensures BooksIn(Posted(s, i))
  {
    EnterStrand(s.pending, s.limit, Waiting(s.posted, s.taken), Queued(s.strand), s.sends, i, s.sends[i].(pc := OnStrand));
  }

  lemma PostKeeps(s: State, i: nat)
    requires Inv(s) && i < |s.sends| && s.sends[i].pc.Post?
    ensures Inv(Posted(s, i))
  {
    PostFlows(s, i);
    PostBooks(s, i);
  }

  lemma FlowsRaise(t: Strand, tasks: seq<Task>, posted: seq<nat>, taken: nat, overflowed: bool)
    requires Flows(t, tasks, posted, taken, overflowed)
    ensures Flows(t, tasks, posted, taken, true)
  {
  }

  lemma StopPostKeeps(s: State, force: bool)
    requires Inv(s)
    ensures Inv(s.(tasks := s.tasks + [StopTask(force, |s.posted|)]))
  {
    FlowsPost(s.strand, s.tasks, s.posted, s.taken, s.overflowed, StopTask(force, |s.posted|), []);
    assert s.posted + [] == s.posted;
  }

  lemma InlineStopKeeps(s: State)
    requires Inv(s) && s.strand.phase.Free?
    ensures Inv(s.(strand := Close(s.strand)))
  {
    CloseOk(s.strand);
  }

  lemma ForcedStopKeeps(s: State, inline: bool)
    requires Inv(s)
    ensures Inv(ForcedStop(s, inline))
  {
    if inline && s.strand.phase.Free? {
      InlineStopKeeps(s);
    } else {
      StopPostKeeps(s, true);
    }
  }

  lemma ForceStopIs(s: State, i: nat, spurious: bool, inline: bool)
    requires i < |s.sends| && s.sends[i].pc.ForceStop?
    ensures ThreadStep(s, i, spurious, inline) == ForcedStop(Go(s, i, Ended, s.pending), inline)
  {
  }

  lemma ForceStopKeeps(s: State, i: nat, spurious: bool, inline: bool)
    requires Inv(s) && i < |s.sends| && s.sends[i].pc.ForceStop?
    ensures Inv(ThreadStep(s, i, spurious, inline))
  {
    ForceStopIs(s, i, spurious, inline);
    var s1 := Go(s, i, Ended, s.pending);
    assert Inv(s1) by {
      GoKeeps(s, i, Ended, s.pending);
    }
    ForcedStopKeeps(s1, inline);
  }

  /** The compare-and-swap. */
  lemma SwapKeeps(s: State, i: nat, spurious: bool, inline: bool)
    requires Inv(s) && i < |s.sends| && s.sends[i].pc.Swap?
    ensures Inv(ThreadStep(s, i, spurious, inline))
  {
    var x := s.sends[i];
    if !Fits(x.size, x.pc.expected, s.limit) {
      GoKeeps(s, i, Refuse, s.pending);
    } else if s.pending == x.pc.expected && !spurious {
      GoKeeps(s, i, Recheck, s.pending + x.size);
    } else {
      GoKeeps(s, i, Swap(s.pending), s.pending);
    }
  }

  lemma ReserveKeeps(s: State, i: nat, spurious: bool, inline: bool)
    requires Inv(s) && i < |s.sends|
    requires var pc := s.sends[i].pc; pc.Check? || pc.Load? || pc.Recheck? || pc.Undo?
    ensures Inv(ThreadStep(s, i, spurious, inline))
  {
    match s.sends[i].pc {
      case Check => GoKeeps(s, i, if s.overflowed then Refuse else Load, s.pending);
      case Load => GoKeeps(s, i, Swap(s.pending), s.pending);
      case Recheck => GoKeeps(s, i, if s.overflowed then Undo else Pc.Post, s.pending);
      case Undo => GoKeeps(s, i, Refuse, s.pending - s.sends[i].size);
    }
  }

  lemma RaiseKeeps(s: State)
    requires Inv(s)
    ensures Inv(s.(overflowed := true))
  {
    FlowsRaise(s.strand, s.tasks, s.posted, s.taken, s.overflowed);
  }

  /** A refused send ends, and raises the flag if nobody has. */
  lemma RefuseKeeps(s: State, i: nat)
    requires Inv(s) && i < |s.sends| && s.sends[i].pc.Refuse?
    ensures Inv(Refused(s, i))
  {
    var s1 := Go(s, i, if s.overflowed then Ended else ForceStop, s.pending);
    assert Inv(s1) by {
      GoKeeps(s, i, if s.overflowed then Ended else ForceStop, s.pending);
    }
    if !s.overflowed {
      RaiseKeeps(s1);
    }
  }

  lemma ThreadKeeps(s: State, i: nat, spurious: bool, inline: bool)
    requires Inv(s) && i < |s.sends|
    ensures Inv(ThreadStep(s, i, spurious, inline))
  {
    match s.sends[i].pc {
      case Swap(_) => SwapKeeps(s, i, spurious, inline);
      case Refuse => RefuseKeeps(s, i);
      case ForceStop => ForceStopKeeps(s, i, spurious, inline);
      case Post => PostKeeps(s, i);
      case OnStrand =>
      case InQueue =>
      case Ended =>
      case _ => ReserveKeeps(s, i, spurious, inline);
    }
  }

  // ---------------------------------------------------------------- strand steps

  lemma FirstPosted(waiting: seq<nat>, queued: seq<nat>, sends: seq<Send>)
    requires Placed(waiting, queued, sends) && waiting != []
    ensures waiting[0] < |sends| && sends[waiting[0]].pc.OnStrand?
  {
  }

  /** A posted send is turned away and its bytes released. */
  lemma TurnBooks(s: State, i: nat, x: Send, pending: int)
    requires Flows(s.strand, s.tasks, s.posted, s.taken, s.overflowed) && Turned(s.strand, s.overflowed)
    requires Books(s.pending, s.limit, Waiting(s.posted, s.taken), Queued(s.strand), s.sends)
    requires s.tasks != [] && s.tasks[0] == SendTask(i) && i < |s.sends|
    requires x == Send(s.sends[i].size, Ended) && pending == s.pending - x.size
    ensures Flows(s.strand, s.tasks[1..], s.posted, s.taken + 1, s.overflowed)
    ensures Books(pending, s.limit, Waiting(s.posted, s.taken + 1), Queued(s.strand), s.sends[i := x])
  {
    WaitingFirst(s.strand, s.tasks, s.posted, s.taken, s.overflowed);
    FlowsTurn(s.strand, s.tasks, s.posted, s.taken, s.overflowed);
    LeaveStrand(s.pending, s.limit, Waiting(s.posted, s.taken), Queued(s.strand), s.sends, i, x, pending);
  }

  lemma TurnKeeps(s: State, i: nat)
    requires Inv(s) && s.tasks != [] && s.tasks[0] == SendTask(i) && i < |s.sends| && Turned(s.strand, s.overflowed)
    ensures Inv(TakeSend(s, i))
  {
    TurnBooks(s, i, Send(s.sends[i].size, Ended), TakeSend(s, i).pending);
  }

  /** A posted send is queued. */
  lemma AcceptBooks(s: State, i: nat, x: Send)
    requires Flows(s.strand, s.tasks, s.posted, s.taken, false)
    requires Books(s.pending, s.limit, Waiting(s.posted, s.taken), Queued(s.strand), s.sends)
    requires s.tasks != [] && s.tasks[0] == SendTask(i) && i < |s.sends| && x == Send(s.sends[i].size, InQueue)
    ensures Books(s.pending, s.limit, Waiting(s.posted, s.taken + 1), Queued(s.strand) + [i], s.sends[i := x])
  {
    WaitingFirst(s.strand, s.tasks, s.posted, s.taken, false);
    JoinQueue(s.pending, s.limit, Waiting(s.posted, s.taken), Queued(s.strand), s.sends, i, x);
  }

  lemma AcceptKeeps(s: State, i: nat)
    requires Inv(s) && s.tasks != [] && s.tasks[0] == SendTask(i) && i < |s.sends| && !Turned(s.strand, s.overflowed)
    ensures Inv(TakeSend(s, i))
  {
    FlowsAccept(s.strand, s.tasks, s.posted, s.taken, Accept(s.strand, i));
    AcceptBooks(s, i, Send(s.sends[i].size, InQueue));
  }

  lemma TakeSendKeeps(s: State, i: nat)
    requires Inv(s) && s.tasks != [] && s.tasks[0] == SendTask(i)
    ensures i < |s.sends| && Inv(TakeSend(s, i))
  {
    WaitingFirst(s.strand, s.tasks, s.posted, s.taken, s.overflowed);
    FirstPosted(Waiting(s.posted, s.taken), Queued(s.strand), s.sends);
    if Turned(s.strand, s.overflowed) {
      TurnKeeps(s, i);
    } else {
      AcceptKeeps(s, i);
    }
  }

  lemma StopTaskKeeps(s: State, failed: bool)
    requires Inv(s) && s.tasks != [] && s.tasks[0].StopTask? && s.strand.phase.Free?
    ensures Inv(RunStrand(s, failed))
  {
    FlowsStop(s.strand, s.tasks, s.posted, s.taken, s.overflowed, failed);
  }

  /** Closing gives back the bytes of one buffer. */
  lemma ReleaseFlows(t: Strand, rest: seq<nat>, tasks: seq<Task>, posted: seq<nat>, taken: nat, overflowed: bool)
    requires Flows(t, tasks, posted, taken, overflowed) && t.phase == Releasing(rest) && rest != []
    ensures Flows(t.(phase := Releasing(rest[1..])), tasks, posted, taken, overflowed)
  {
  }

  lemma FirstQueued(s: State, rest: seq<nat>)
    requires BooksIn(s) && s.strand.phase == Releasing(rest) && rest != []
    ensures rest[0] < |s.sends|
  {
  }

  lemma ReleaseBooks(s: State, rest: seq<nat>)
    requires BooksIn(s) && s.strand.phase == Releasing(rest) && rest != [] && rest[0] < |s.sends|
    ensures BooksIn(GoOnClosing(s, rest))
  {
    var x := s.sends[rest[0]].(pc := Ended);
    LeaveQueue(s.pending, s.limit, Waiting(s.posted, s.taken), rest, s.sends, rest[0], x, s.pending - x.size);
  }

  lemma ReleaseFlowsIn(s: State, rest: seq<nat>)
    requires FlowsIn(s) && s.strand.phase == Releasing(rest) && rest != [] && rest[0] < |s.sends|
    ensures FlowsIn(GoOnClosing(s, rest))
  {
    ReleaseFlows(s.strand, rest, s.tasks, s.posted, s.taken, s.overflowed);
  }

  lemma ReleaseKeeps(s: State, rest: seq<nat>)
    requires Inv(s) && s.strand.phase == Releasing(rest) && rest != []
    ensures Inv(GoOnClosing(s, rest))
  {
    FirstQueued(s, rest);
    ReleaseFlowsIn(s, rest);
    ReleaseBooks(s, rest);
  }

  /** Closing is complete and its owner is told. */
  lemma ClosedFlows(t: Strand, tasks: seq<Task>, posted: seq<nat>, taken: nat, overflowed: bool)
    requires Flows(t, tasks, posted, taken, overflowed) && t.phase == Releasing([])
    ensures Flows(t.(phase := Free, callbacks := t.callbacks + 1), tasks, posted, taken, overflowed) && t.queue == []
  {
  }

  lemma ClosedKeeps(s: State)
    requires Inv(s) && s.strand.phase == Releasing([])
    ensures Inv(GoOnClosing(s, []))
  {
    ClosedFlows(s.strand, s.tasks, s.posted, s.taken, s.overflowed);
  }

  lemma StrandKeeps(s: State, failed: bool)
    requires Inv(s)
    ensures Inv(RunStrand(s, failed))
  {
    if s.strand.phase == Releasing([]) {
      ClosedKeeps(s);
    } else if s.strand.phase.Releasing? {
      ReleaseKeeps(s, s.strand.phase.rest);
    } else if s.tasks != [] {
      if s.tasks[0].SendTask? {
        TakeSendKeeps(s, s.tasks[0].id);
      } else {
        StopTaskKeeps(s, failed);
      }
    }
  }

  lemma WrittenKeeps(s: State, error: bool, failed: bool)
    requires Inv(s)
    ensures Inv(RunWritten(s, error, failed))
  {
    var t := s.strand;
    if t.phase.Free? && t.outstanding != [] {
      FlowsWrote(t, s.tasks, s.posted, s.taken, s.overflowed, error, failed);
      if !t.closed && !error {
        FrontKeeps(s, failed);
      }
    }
  }

  /** A successful write gives back the bytes of the queue's front. */
  lemma FrontKeeps(s: State, failed: bool)
    requires Inv(s) && s.strand.phase.Free? && s.strand.outstanding != [] && !s.strand.closed
    ensures Inv(RunWritten(s, false, failed))
  {
    var t := s.strand;
    FlowsWrote(t, s.tasks, s.posted, s.taken, s.overflowed, false, failed);
    var x := s.sends[t.queue[0]].(pc := Ended);
    LeaveQueue(s.pending, s.limit, Waiting(s.posted, s.taken), t.queue, s.sends, t.queue[0], x, s.pending - x.size);
  }

  lemma CallKeeps(s: State, size: nat)
    requires Inv(s)
    ensures Inv(s.(sends := s.sends + [Send(size, Check)]))
  {
    EnterCall(s.pending, s.limit, Waiting(s.posted, s.taken), Queued(s.strand), s.sends, Send(size, Check));
  }

  /** A step of a caller: a new call, a step of a send, or a stop. */
  lemma CallerKeeps(s: State, l: Label)
    requires Inv(s) && (l.Call? || l.Thread? || l.StopCall?)
    ensures Inv(Next(s, l))
  {
    match l {
      case Call(size) => CallKeeps(s, size);
      case Thread(i, spurious, inline) =>
        if i < |s.sends| {
          ThreadKeeps(s, i, spurious, inline);
        }
      case StopCall(force, inline) =>
        if force {
          ForcedStopKeeps(s, inline);
        } else {
          StopPostKeeps(s, false);
        }
    }
  }

  lemma NextKeeps(s: State, l: Label)
    requires Inv(s)
    ensures Inv(Next(s, l))
  {
    if l.StrandStep? {
      StrandKeeps(s, l.failed);
    } else if l.WriteDone? {
      WrittenKeeps(s, l.error, l.failed);
    } else if l.ReadError? {
      if s.strand.phase.Free? {
        InlineStopKeeps(s);
      }
    } else {
      CallerKeeps(s, l);
    }
  }

  lemma {:induction false} RunKeeps(s: State, labels: seq<Label>)
    requires Inv(s)
    ensures Inv(Run(s, labels)) && Run(s, labels).limit == s.limit
    decreases |labels|
  {
    if labels != [] {
      NextKeeps(s, labels[0]);
      NextLimit(s, labels[0]);
      RunKeeps(Next(s, labels[0]), labels[1..]);
    }
  }

  lemma NextLimit(s: State, l: Label)
    ensures Next(s, l).limit == s.limit
  {
  }

  // ---------------------------------------------------------------- overflow

  /** The thread that raises the flag is bound to stop the connection. */
  ghost predicate Watched(s: State)
  {
    s.overflowed && !s.strand.closed ==> StopComes(s.sends, s.tasks)
  }

  /** Sends move on or are added, tasks are added; nothing that will stop the
      connection is lost. */
  lemma StopStillComes(sends: seq<Send>, tasks: seq<Task>, sends': seq<Send>, tasks': seq<Task>)
    requires StopComes(sends, tasks) && tasks <= tasks' && |sends| <= |sends'|
    requires forall i :: 0 <= i < |sends| && sends[i].pc.ForceStop? ==> sends'[i].pc.ForceStop?
    ensures StopComes(sends', tasks')
  {
    if k :| 0 <= k < |tasks| && tasks[k].StopTask? && tasks[k].force {
      assert tasks'[k] == tasks[k];
    } else {
      var i :| 0 <= i < |sends| && sends[i].pc.ForceStop?;
      assert sends'[i].pc.ForceStop?;
    }
  }

  lemma StopBehind(sends: seq<Send>, tasks: seq<Task>)
    requires StopComes(sends, tasks) && tasks != [] && !(tasks[0].StopTask? && tasks[0].force)
    ensures StopComes(sends, tasks[1..])
  {
    if k :| 0 <= k < |tasks| && tasks[k].StopTask? && tasks[k].force {
      assert tasks[1..][k - 1] == tasks[k];
    }
  }

  lemma ForcedStopComes(s: State, inline: bool)
    ensures var s' := ForcedStop(s, inline); s'.strand.closed || StopComes(s'.sends, s'.tasks)
  {
    if !(inline && s.strand.phase.Free?) {
      assert ForcedStop(s, inline).tasks[|s.tasks|] == StopTask(true, |s.posted|);
    }
  }

  lemma ThreadWatched(s: State, i: nat, spurious: bool, inline: bool)
    requires Watched(s) && i < |s.sends|
    ensures Watched(ThreadStep(s, i, spurious, inline))
  {
    var s' := ThreadStep(s, i, spurious, inline);
    match s.sends[i].pc {
      case ForceStop => ForcedStopComes(Go(s, i, Ended, s.pending), inline);
      case Refuse =>
        if !s.overflowed {
          assert s'.sends[i].pc.ForceStop?;
        } else if !s.strand.closed {
          StopStillComes(s.sends, s.tasks, s'.sends, s'.tasks);
        }
      case _ =>
        if s.overflowed && !s.strand.closed {
          StopStillComes(s.sends, s.tasks, s'.sends, s'.tasks);
        }
    }
  }

  lemma StrandWatched(s: State, failed: bool)
    requires Watched(s) && (s.strand.phase.Releasing? ==> s.strand.closed)
    requires s.tasks != [] && s.tasks[0].SendTask? && s.tasks[0].id < |s.sends| ==> s.sends[s.tasks[0].id].pc.OnStrand?
    ensures Watched(RunStrand(s, failed))
  {
    if s.strand.phase.Free? && s.tasks != [] && s.overflowed && !s.strand.closed {
      var s' := RunStrand(s, failed);
      if s.tasks[0].SendTask? && s.tasks[0].id < |s.sends| {
        StopBehind(s.sends, s.tasks);
        StopStillComes(s.sends, s.tasks[1..], s'.sends, s'.tasks);
      } else if s.tasks[0].StopTask? && !s.tasks[0].force {
        StopBehind(s.sends, s.tasks);
      }
    }
  }

  lemma WrittenWatched(s: State, error: bool, failed: bool)
    requires Watched(s) && (forall i :: i in s.strand.queue ==> i < |s.sends| && s.sends[i].pc.InQueue?)
    ensures Watched(RunWritten(s, error, failed))
  {
    var s' := RunWritten(s, error, failed);
    if s.overflowed && !s.strand.closed {
      StopStillComes(s.sends, s.tasks, s'.sends, s'.tasks);
    }
  }

  /** Where the sends are that the strand handles next. */
  ghost predicate InPlace(s: State)
  {
    && (s.strand.phase.Releasing? ==> s.strand.closed)
    && (s.tasks != [] && s.tasks[0].SendTask? && s.tasks[0].id < |s.sends| ==> s.sends[s.tasks[0].id].pc.OnStrand?)
    && (forall i :: i in s.strand.queue ==> i < |s.sends| && s.sends[i].pc.InQueue?)
  }

  lemma InvInPlace(s: State)
    requires Inv(s)
    ensures InPlace(s)
  {
    if s.tasks != [] && s.tasks[0].SendTask? {
      WaitingFirst(s.strand, s.tasks, s.posted, s.taken, s.overflowed);
      FirstPosted(Waiting(s.posted, s.taken), Queued(s.strand), s.sends);
    }
  }

  lemma NextWatched(s: State, l: Label)
    requires InPlace(s) && Watched(s)
    ensures Watched(Next(s, l))
  {
    match l {
      case Thread(i, spurious, inline) =>
        if i < |s.sends| {
          ThreadWatched(s, i, spurious, inline);
        }
      case StrandStep(failed) => StrandWatched(s, failed);
      case WriteDone(error, failed) => WrittenWatched(s, error, failed);
      case _ =>
        if s.overflowed && !s.strand.closed {
          StopStillComes(s.sends, s.tasks, Next(s, l).sends, Next(s, l).tasks);
        }
    }
  }

  lemma EmptyFlows(t: Strand)
    requires t == NewStrand()
    ensures Flows(t, [], [], 0, false) && Placed(Waiting([], 0), Queued(t), [])
  {
  }

  lemma StartIsSound(limit: nat)
    ensures Inv(Start(limit)) && Watched(Start(limit))
  {
    EmptyFlows(NewStrand());
  }

  lemma {:induction false} RunWatched(s: State, labels: seq<Label>)
    requires Inv(s) && Watched(s)
    ensures Watched(Run(s, labels))
    decreases |labels|
  {
    if labels != [] {
      NextKeeps(s, labels[0]);
      InvInPlace(s);
      NextWatched(s, labels[0]);
      RunWatched(Next(s, labels[0]), labels[1..]);
    }
  }

  // ---------------------------------------------------------------- theorems

  /** Under every interleaving the counter is exactly the bytes reserved by threads
      still in the call, plus those of posted and those of queued buffers (or, while
      closing releases them, those still to be released); so it is never negative
      and never above the limit. */
  lemma BytesConserved(limit: nat, labels: seq<Label>)
    ensures var s := Run(Start(limit), labels);
      && s.taken <= |s.posted|
      && s.pending == AllInHand(s.sends) + BytesOf(s.posted[s.taken..], s.sends)
                      + BytesOf(if s.strand.phase.Releasing? then s.strand.phase.rest else s.strand.queue, s.sends)
      && 0 <= s.pending <= limit
  {
    StartIsSound(limit);
    RunKeeps(Start(limit), labels);
  }

  predicate InCall(pc: Pc)
  {
    !pc.OnStrand? && !pc.InQueue? && !pc.Ended?
  }

  predicate Drained(s: State)
  {
    && s.strand.closed && s.strand.phase.Free? && s.tasks == []
    && forall i :: 0 <= i < |s.sends| ==> !InCall(s.sends[i].pc)
  }

  lemma DrainedHoldsNothing(s: State)
    requires Inv(s) && Drained(s)
    ensures s.pending == 0
  {
    NoneInHand(s.sends);
  }

  /** A closed connection whose posted work has all run holds no bytes once no thread
      is inside `send`. */
  lemma ReturnsToZero(limit: nat, labels: seq<Label>)
    ensures Drained(Run(Start(limit), labels)) ==> Run(Start(limit), labels).pending == 0
  {
    StartIsSound(limit);
    RunKeeps(Start(limit), labels);
    if Drained(Run(Start(limit), labels)) {
      DrainedHoldsNothing(Run(Start(limit), labels));
    }
  }

  /** At most one write is outstanding; what is written is a prefix of what was
      accepted, which is a prefix of what was posted; while the connection is not
      closed, the rest of what was accepted is queued and its front is being written,
      and until a close is asked for or bytes overflow everything taken was accepted;
      send-shutdown happens at most once, after everything accepted was written;
      nothing posted after a graceful stop is accepted, and if it found no overflow
      everything posted before it is written before the send-shutdown. */
  predicate InOrderDrain(t: Strand, posted: seq<nat>, taken: nat, overflowed: bool)
  {
    && |t.outstanding| <= 1
    && t.written <= t.accepted <= posted
    && (!t.closed ==> t.written + t.queue == t.accepted && t.outstanding == if t.queue == [] then [] else [t.queue[0]])
    && taken <= |posted|
    && (!t.closed && t.graceful.NotAsked? && !overflowed ==> t.accepted == posted[..taken])
    && t.shutdowns <= 1
    && (t.graceful.Asked? ==> t.graceful.mark <= |posted| && t.accepted <= posted[..t.graceful.mark])
    && (t.shutdowns == 1 ==> t.graceful.Asked? && t.written == t.accepted)
    && (t.shutdowns == 1 && t.graceful.lossless ==> t.written == posted[..t.graceful.mark])
    && (t.graceful.Asked? && !t.closed ==> t.shutdowns == 1 || |t.outstanding| == 1)
  }

  lemma FlowsDrain(t: Strand, posted: seq<nat>, taken: nat, overflowed: bool)
    requires StrandOk(t) && InOrder(t, posted, taken, overflowed)
    ensures InOrderDrain(t, posted, taken, overflowed)
  {
  }

  lemma OrderedDrain(limit: nat, labels: seq<Label>)
    ensures var s := Run(Start(limit), labels); InOrderDrain(s.strand, s.posted, s.taken, s.overflowed)
  {
    StartIsSound(limit);
    RunKeeps(Start(limit), labels);
    var s := Run(Start(limit), labels);
    FlowsDrain(s.strand, s.posted, s.taken, s.overflowed);
  }

  /** A connection that overflowed is closed, or a forced stop of it is on its way;
      its owner hears of the close exactly once, when closing is complete. */
  lemma OverflowCloses(limit: nat, labels: seq<Label>)
    ensures var s := Run(Start(limit), labels);
      && (s.overflowed ==> s.strand.closed || StopComes(s.sends, s.tasks))
      && s.strand.callbacks == (if s.strand.closed && s.strand.phase.Free? then 1 else 0)
  {
    StartIsSound(limit);
    RunKeeps(Start(limit), labels);
    RunWatched(Start(limit), labels);
  }

  // ---------------------------------------------------------------- graceful stops

  /** The strand takes a graceful stop, and is not closed. */
  predicate TakesGrace(s: State, l: Label)
  {
    && l.StrandStep? && s.strand.phase.Free? && !s.strand.closed
    && s.tasks != [] && s.tasks[0].StopTask? && !s.tasks[0].force
  }

  /** The first graceful stop that the strand takes in a run while it is not closed: how
      many sends had been posted before it, and whether bytes had overflowed. */
  function FirstGrace(s: State, labels: seq<Label>): Grace
    decreases |labels|
  {
    if labels == [] then NotAsked
    else if TakesGrace(s, labels[0]) then Asked(s.tasks[0].mark, !s.overflowed)
    else FirstGrace(Next(s, labels[0]), labels[1..])
  }

  lemma GraceStays(s: State, l: Label)
    requires !TakesGrace(s, l)
    ensures Next(s, l).strand.graceful == s.strand.graceful
  {
  }

  lemma GraceIsTaken(s: State, l: Label)
    requires StrandOk(s.strand) && TakesGrace(s, l)
    ensures Next(s, l).strand.graceful ==
      if s.strand.graceful.Asked? then s.strand.graceful else Asked(s.tasks[0].mark, !s.overflowed)
  {
  }

  lemma {:induction false} RunGrace(s: State, labels: seq<Label>)
    requires Inv(s)
    ensures Run(s, labels).strand.graceful == if s.strand.graceful.Asked? then s.strand.graceful else FirstGrace(s, labels)
    decreases |labels|
  {
    if labels != [] {
      if TakesGrace(s, labels[0]) {
        GraceIsTaken(s, labels[0]);
      } else {
        GraceStays(s, labels[0]);
      }
      NextKeeps(s, labels[0]);
      RunGrace(Next(s, labels[0]), labels[1..]);
    }
  }

  /** Over every run: a graceful close is asked for exactly if the strand has taken a
      graceful stop while it was not closed, and it is the first such stop that counts.
      From then on, until the connection is closed, no send is accepted, and sending is
      shut down exactly if the queue is empty. */
  lemma GracefulStops(limit: nat, labels: seq<Label>)
    ensures
      var s := Run(Start(limit), labels);
      && s.strand.graceful == FirstGrace(Start(limit), labels)
      && (FirstGrace(Start(limit), labels).Asked? ==>
            && |s.strand.accepted| <= FirstGrace(Start(limit), labels).mark
            && (!s.strand.closed ==> (s.strand.shutdowns == 1 <==> s.strand.queue == [])))
  {
    StartIsSound(limit);
    RunGrace(Start(limit), labels);
    RunKeeps(Start(limit), labels);
  }

  /** One write of a graceful close succeeds. */
  lemma WriteDrains(s: State)
    requires StrandOk(s.strand) && s.strand.graceful.Asked? && !s.strand.closed && s.strand.queue != []
    ensures
      var s' := Next(s, WriteDone(false, false));
      && s'.strand.queue == s.strand.queue[1..] && s'.strand.accepted == s.strand.accepted
      && s'.strand.graceful == s.strand.graceful && !s'.strand.closed && StrandOk(s'.strand)
  {
    WroteOk(s.strand, false, false);
  }

  /** So a graceful close that meets no error ends: with as many writes as are queued,
      everything accepted is written, in order, and sending is shut down, once. */
  lemma {:induction false} GracefulDrains(s: State)
    requires StrandOk(s.strand) && s.strand.graceful.Asked? && !s.strand.closed
    ensures
      var s' := Run(s, Times(|s.strand.queue|, WriteDone(false, false)));
      && s'.strand.queue == [] && s'.strand.written == s.strand.accepted && s'.strand.shutdowns == 1 && !s'.strand.closed
    decreases |s.strand.queue|
  {
    if s.strand.queue != [] {
      WriteDrains(s);
      RunTimes(s, |s.strand.queue| - 1, WriteDone(false, false));
      GracefulDrains(Next(s, WriteDone(false, false)));
    } else {
      assert s.strand.written + [] == s.strand.written;
    }
  }

  // ---------------------------------------------------------------- what is accepted, written and closed

  /** The strand takes the send that was posted first. */
  predicate TakesSend(s: State, l: Label)
  {
    l.StrandStep? && s.strand.phase.Free? && s.tasks != [] && s.tasks[0].SendTask? && s.tasks[0].id < |s.sends|
  }

  /** The handler of the outstanding write runs. */
  predicate HearsWrite(s: State, l: Label)
  {
    l.WriteDone? && s.strand.phase.Free? && s.strand.outstanding != []
  }

  /** What closes a connection: a read error, a write error, a forced stop, run at once or
      taken by the strand, or the failure to shut down sending once a graceful close has
      nothing left to write. */
  predicate Closes(s: State, l: Label)
  {
    && s.strand.phase.Free?
    && match l
       case Call(_) => false
       case ReadError => true
       case WriteDone(error, failed) =>
         s.strand.outstanding != [] && (error || (failed && s.strand.graceful.Asked? && |s.strand.queue| == 1))
       case StopCall(force, inline) => force && inline
       case Thread(i, _, inline) => i < |s.sends| && s.sends[i].pc.ForceStop? && inline
       case StrandStep(failed) =>
         && s.tasks != [] && s.tasks[0].StopTask?
         && (s.tasks[0].force || (failed && s.strand.graceful.NotAsked? && s.strand.queue == []))
  }

  lemma ThreadFrame(s: State, i: nat, spurious: bool, inline: bool)
    requires i < |s.sends|
    ensures
      var t := ThreadStep(s, i, spurious, inline).strand;
      && t.accepted == s.strand.accepted && t.written == s.strand.written
      && (t.closed <==> s.strand.closed || Closes(s, Thread(i, spurious, inline)))
  {
  }

  lemma StrandFrame(s: State, failed: bool)
    requires StrandOk(s.strand)
    ensures
      var t, l := RunStrand(s, failed).strand, StrandStep(failed);
      && t.accepted == s.strand.accepted +
           (if TakesSend(s, l) && !s.strand.closed && s.strand.graceful.NotAsked? && !s.overflowed then [s.tasks[0].id] else [])
      && t.written == s.strand.written && (t.closed <==> s.strand.closed || Closes(s, l))
  {
    assert s.strand.accepted + [] == s.strand.accepted;
  }

  lemma WrittenFrame(s: State, error: bool, failed: bool)
    requires StrandOk(s.strand)
    ensures
      var t, l := RunWritten(s, error, failed).strand, WriteDone(error, failed);
      && t.accepted == s.strand.accepted && (t.closed <==> s.strand.closed || Closes(s, l))
      && t.written == s.strand.written + (if HearsWrite(s, l) && !s.strand.closed && !error then [s.strand.queue[0]] else [])
  {
    assert s.strand.written + [] == s.strand.written;
  }

  /** In every step of every reachable state: a send is accepted exactly if the strand
      takes it while the connection is not closed, no graceful close has been asked for
      and no bytes have overflowed; the front of the queue is written exactly if its
      write succeeds before the connection is closed; and nothing but `Closes` closes
      it, and that at once. */
  lemma EgressFrame(limit: nat, labels: seq<Label>, l: Label)
    ensures
      var s := Run(Start(limit), labels);
      var t, t' := s.strand, Next(s, l).strand;
      && t'.accepted == t.accepted +
           (if TakesSend(s, l) && !t.closed && t.graceful.NotAsked? && !s.overflowed then [s.tasks[0].id] else [])
      && (HearsWrite(s, l) && !t.closed ==> t.queue != [])
      && t'.written == t.written + (if HearsWrite(s, l) && !t.closed && !l.error then [t.queue[0]] else [])
      && (t'.closed <==> t.closed || Closes(s, l))
  {
    var s := Run(Start(limit), labels);
    StartIsSound(limit);
    RunKeeps(Start(limit), labels);
    EgressStep(s, l);
  }

  lemma EgressStep(s: State, l: Label)
    requires StrandOk(s.strand)
    ensures
      var t, t' := s.strand, Next(s, l).strand;
      && t'.accepted == t.accepted +
           (if TakesSend(s, l) && !t.closed && t.graceful.NotAsked? && !s.overflowed then [s.tasks[0].id] else [])
      && (HearsWrite(s, l) && !t.closed ==> t.queue != [])
      && t'.written == t.written + (if HearsWrite(s, l) && !t.closed && !l.error then [t.queue[0]] else [])
      && (t'.closed <==> t.closed || Closes(s, l))
  {
    assert s.strand.accepted + [] == s.strand.accepted && s.strand.written + [] == s.strand.written;
    match l {
      case Thread(i, spurious, inline) =>
        if i < |s.sends| {
          ThreadFrame(s, i, spurious, inline);
        }
      case StrandStep(failed) => StrandFrame(s, failed);
      case WriteDone(error, failed) => WrittenFrame(s, error, failed);
      case _ =>
    }
  }

  // ---------------------------------------------------------------- sends

  /** A send that has the connection to itself, from its call to the strand. */
  function Alone(i: nat): seq<Label> { Times(5, Thread(i, false, false)) }

  lemma RunFive(s: State, l: Label)
    ensures Run(s, Times(5, l)) == Next(Next(Next(Next(Next(s, l), l), l), l), l)
  {
    RunTimes(s, 4, l);
    RunTimes(Next(s, l), 3, l);
    RunTimes(Next(Next(s, l), l), 2, l);
    RunTimes(Next(Next(Next(s, l), l), l), 1, l);
    RunTimes(Next(Next(Next(Next(s, l), l), l), l), 0, l);
  }

  /** It reserves its bytes and is posted if and only if they fit under the limit;
      otherwise it leaves the counter alone, raises the flag and stops the connection. */
  lemma LoneSend(s: State, i: nat)
    requires i < |s.sends| && s.sends[i].pc.Check? && !s.overflowed
    ensures
      var s' := Run(s, Alone(i));
      |s'.sends| == |s.sends| &&
      if s.pending + s.sends[i].size <= s.limit && s.sends[i].size <= s.limit then
        && s'.posted == s.posted + [i] && s'.tasks == s.tasks + [SendTask(i)] && s'.sends[i].pc.OnStrand?
        && s'.pending == s.pending + s.sends[i].size && !s'.overflowed
      else
        && s'.posted == s.posted && s'.pending == s.pending && s'.overflowed && s'.sends[i].pc.Ended?
        && s'.tasks == s.tasks + [StopTask(true, |s.posted|)]
  {
    RunFive(s, Thread(i, false, false));
  }

  /** The steps in which a send that is alone, after an overflow, ends. */
  function RefusalLeft(s: State, i: nat): nat
    requires i < |s.sends|
  {
    match s.sends[i].pc
    case Check => 2
    case Load => 5
    case Swap(expected) => if !Fits(s.sends[i].size, expected, s.limit) then 2 else if expected == s.pending then 4 else 5
    case Recheck => 3
    case Undo => 2
    case Refuse => 1
    case _ => 0
  }

  /** Where a send is that has not been posted and will not be. */
  predicate Unposted(pc: Pc)
  {
    !pc.Post? && !pc.OnStrand? && !pc.InQueue? && !pc.ForceStop?
  }

  lemma OneRefusal(s: State, i: nat)
    requires i < |s.sends| && s.overflowed && Unposted(s.sends[i].pc)
    ensures
      var s' := ThreadStep(s, i, false, false);
      && |s'.sends| == |s.sends| && s'.posted == s.posted && s'.tasks == s.tasks && s'.overflowed
      && Unposted(s'.sends[i].pc) && s'.pending - InHand(s'.sends[i]) == s.pending - InHand(s.sends[i])
      && (if s.sends[i].pc.Ended? then s' == s else RefusalLeft(s', i) < RefusalLeft(s, i))
  {
  }

  /** Once bytes have overflowed, a send that has not been posted never is: left to
      itself it ends, and whatever it had reserved is given back. */
  lemma {:induction false} RefusedAfterOverflow(s: State, i: nat, n: nat)
    requires i < |s.sends| && s.overflowed && Unposted(s.sends[i].pc) && n >= RefusalLeft(s, i)
    ensures
      var s' := Run(s, Times(n, Thread(i, false, false)));
      && |s'.sends| == |s.sends| && s'.sends[i].pc.Ended? && s'.posted == s.posted && s'.tasks == s.tasks
      && s'.pending == s.pending - InHand(s.sends[i])
    decreases n
  {
    if n > 0 {
      OneRefusal(s, i);
      RunTimes(s, n - 1, Thread(i, false, false));
      RefusedAfterOverflow(ThreadStep(s, i, false, false), i, n - 1);
    }
  }

  // ---------------------------------------------------------------- closing runs to its end

  function Times(n: nat, l: Label): seq<Label>
  {
    if n == 0 then [] else [l] + Times(n - 1, l)
  }

  /** The steps in which closing releases its buffers, run one after
      another, take back exactly the bytes of those buffers and end in the
      settled strand. */
  lemma {:induction false} ReleasingSettles(s: State, failed: bool)
    requires s.strand.phase.Releasing? && AllAt(s.strand.phase.rest, s.sends, InQueue)
    ensures
      var s' := Run(s, Times(|s.strand.phase.rest| + 1, StrandStep(failed)));
      s'.strand == Settle(s.strand) && s'.pending == s.pending - BytesOf(s.strand.phase.rest, s.sends)
    decreases |s.strand.phase.rest|
  {
    var rest, s1 := s.strand.phase.rest, Next(s, StrandStep(failed));
    RunTimes(s, |rest|, StrandStep(failed));
    ReleasingStep(s, failed);
    if rest != [] {
      ReleasingSettles(s1, failed);
    }
  }

  lemma RunTimes(s: State, n: nat, l: Label)
    ensures Run(s, Times(n + 1, l)) == Run(Next(s, l), Times(n, l))
  {
    assert Times(n + 1, l)[1..] == Times(n, l);
  }

  lemma ReleasingStep(s: State, failed: bool)
    requires s.strand.phase.Releasing? && AllAt(s.strand.phase.rest, s.sends, InQueue)
    ensures var s' := Next(s, StrandStep(failed));
      var rest := s.strand.phase.rest;
      if rest == [] then s'.strand == Settle(s.strand) && s'.pending == s.pending
      else
        && s'.strand == s.strand.(phase := Releasing(rest[1..]))
        && s'.pending == s.pending - SizeOf(rest[0], s.sends)
        && BytesOf(rest[1..], s'.sends) == BytesOf(rest[1..], s.sends)
        && AllAt(rest[1..], s'.sends, InQueue)
  {
    var rest := s.strand.phase.rest;
    if rest != [] {
      BytesSame(rest[1..], s.sends, Next(s, StrandStep(failed)).sends);
    }
  }

  // ---------------------------------------------------------------- object

  datatype Write = Write(id: nat, reserved: nat)

  function Ids(q: seq<Write>): seq<nat>
  {
    if q == [] then [] else [q[0].id] + Ids(q[1..])
  }

  function Bytes(q: seq<Write>): nat
  {
    if q == [] then 0 else q[0].reserved + Bytes(q[1..])
  }

  lemma {:induction false} IdsAppend(q: seq<Write>, w: Write)
    ensures Ids(q + [w]) == Ids(q) + [w.id] && Bytes(q + [w]) == Bytes(q) + w.reserved
    decreases |q|
  {
    if q == [] {
      assert q + [w] == [w];
    } else {
      assert (q + [w])[1..] == q[1..] + [w];
      IdsAppend(q[1..], w);
    }
  }

  lemma IdsEmpty(q: seq<Write>)
    ensures Ids(q) == [] <==> q == []
    ensures q != [] ==> Ids(q)[0] == q[0].id && Ids(q)[1..] == Ids(q[1..])
  {
  }

  /** The counter once others have written the first `seen` values of `found`. */
  function LeftBy(start: int, found: seq<int>, seen: nat): int
    requires seen <= |found|
  {
    if seen == 0 then start else found[seen - 1]
  }

  /** A connection as its strand sees it, between handlers. */
  class Connection {
    const limit: nat
    var pending: int
    var overflowed: bool
    var writeQueue: seq<Write>
    var gracefulRequested: bool
    ghost var grace: Grace
    var sentShutdown: bool
    var closed: bool
    var open: bool
    var onClosed: bool
    ghost var outstanding: seq<nat>
    ghost var shutdowns: nat
    ghost var accepted: seq<nat>
    ghost var written: seq<nat>
    ghost var callbacks: nat

    ghost function Value(): Strand
      reads this
    {
      Strand(Ids(writeQueue), outstanding, grace, shutdowns, closed, open, Free, accepted, written, callbacks)
    }

    ghost predicate Valid()
      reads this
    {
      && StrandOk(Value()) && (onClosed <==> callbacks == 0)
      && (gracefulRequested <==> grace.Asked?) && (sentShutdown <==> shutdowns > 0)
    }

    constructor (limit: nat)
      ensures Valid() && Value() == NewStrand() && pending == 0 && !overflowed && this.limit == limit
    {
      this.limit, pending, overflowed := limit, 0, false;
      writeQueue, gracefulRequested, sentShutdown, closed, open, onClosed := [], false, false, false, true, true;
      grace, outstanding, shutdowns, accepted, written, callbacks := NotAsked, [], 0, [], [], 0;
    }

    /** The compare-and-swap loop among other threads. `found[k]` is what they have
        made of the counter when the k-th swap is tried, `spurious[k]` whether it then
        fails for no reason, and `raised` whether the overflow flag is up at the end;
        `seen` says how many of these the loop met. It reserves exactly when the
        counter it met last fits and nothing overflowed, on top of what the others
        left, and otherwise leaves the counter to them. */
    method ReserveSendBytes(size: nat, found: seq<int>, spurious: seq<bool>, raised: bool) returns (ok: bool, seen: nat)
      requires |spurious| == |found|
      modifies this`pending, this`overflowed
      ensures seen <= |found| && overflowed == (old(overflowed) || (raised && Fits(size, LeftBy(old(pending), found, seen), limit)))
      ensures ok <==> !overflowed && Fits(size, LeftBy(old(pending), found, seen), limit)
      ensures pending == LeftBy(old(pending), found, seen) + if ok then size else 0
    {
      seen := 0;
      if overflowed {
        return false, 0;
      }
      var expected := pending;
      while size <= limit && expected <= limit - size
        invariant seen <= |found| && !overflowed && !old(overflowed)
        invariant pending == expected == LeftBy(old(pending), found, seen)
        decreases |found| - seen
      {
        if seen < |found| {
          pending := found[seen];
          seen := seen + 1;
          if pending != expected || spurious[seen - 1] {
            expected := pending;
            continue;
          }
        }
        pending := expected + size;
        overflowed := raised;
        if !overflowed {
          return true, seen;
        }
        pending := pending - size;
        return false, seen;
      }
      return false, seen;
    }

    method FinishClose()
      requires closed ==> writeQueue == []
      requires onClosed <==> callbacks == 0
      requires !closed ==> onClosed
      modifies this
      ensures Value() == Settle(Close(old(Value()))) && (onClosed <==> callbacks == 0)
      ensures gracefulRequested == old(gracefulRequested) && sentShutdown == old(sentShutdown)
      ensures pending == old(pending) - Bytes(old(writeQueue)) && overflowed == old(overflowed)
    {
      if closed {
        return;
      }
      closed := true;
      open := false;
      var i := 0;
      while i < |writeQueue|
        invariant 0 <= i <= |writeQueue|
        invariant unchanged(this`writeQueue, this`grace, this`gracefulRequested, this`sentShutdown, this`outstanding, this`shutdowns, this`accepted, this`written)
        invariant unchanged(this`callbacks, this`onClosed, this`overflowed)
        invariant closed && !open
        invariant pending - Bytes(writeQueue[i..]) == old(pending) - Bytes(writeQueue)
      {
        assert writeQueue[i..][1..] == writeQueue[i + 1..];
        pending := pending - writeQueue[i].reserved;
        i := i + 1;
      }
      writeQueue := [];
      if onClosed {
        onClosed := false;
        callbacks := callbacks + 1;
      }
    }

    /** `failed` is what the socket says to the shutdown. */
    method ShutdownSendImpl(failed: bool)
      requires writeQueue == [] && !closed && onClosed && callbacks == 0
      modifies this
      ensures Value() == Settle(ShutdownSend(old(Value()), failed)) && (onClosed <==> callbacks == 0)
      ensures gracefulRequested == old(gracefulRequested) && sentShutdown
      ensures pending == old(pending) && overflowed == old(overflowed)
    {
      shutdowns := shutdowns + 1;
      sentShutdown := true;
      if failed {
        FinishClose();
      }
    }

    method ActiveStopImpl(force: bool, ghost mark: nat, failed: bool)
      requires Valid()
      modifies this
      ensures Valid() && Value() == Settle(Stop(old(Value()), force, Asked(mark, !overflowed), failed))
      ensures pending == old(pending) - if force then Bytes(old(writeQueue)) else 0
      ensures overflowed == old(overflowed)
    {
      StopOk(Value(), force, Asked(mark, !overflowed), failed);
      IdsEmpty(writeQueue);
      if closed || (!force && gracefulRequested) {
        return;
      }
      if !open || force {
        FinishClose();
        return;
      }
      gracefulRequested := true;
      grace := Asked(mark, !overflowed);
      if writeQueue != [] {
        return;
      }
      ShutdownSendImpl(failed);
    }

    method SendImpl(id: nat, reserved: nat)
      requires Valid()
      modifies this
      ensures Valid() && overflowed == old(overflowed)
      ensures Value() == if Turned(old(Value()), overflowed) then old(Value()) else Accept(old(Value()), id)
      ensures pending == old(pending) - if Turned(old(Value()), overflowed) then reserved else 0
      ensures !Turned(old(Value()), overflowed) ==> writeQueue == old(writeQueue) + [Write(id, reserved)]
    {
      if closed || gracefulRequested || overflowed || !open {
        pending := pending - reserved;
        return;
      }
      AcceptOk(Value(), id);
      IdsAppend(writeQueue, Write(id, reserved));
      IdsEmpty(writeQueue);
      var inProgress := writeQueue != [];
      writeQueue := writeQueue + [Write(id, reserved)];
      accepted := accepted + [id];
      if inProgress {
        return;
      }
      StartWrite();
    }

    method StartWrite()
      requires writeQueue != []
      modifies this`outstanding
      ensures Value() == WriteNext(old(Value()))
    {
      outstanding := outstanding + [writeQueue[0].id];
    }

    method PopFront(ghost first: nat, failed: bool)
      requires writeQueue != [] && !closed && onClosed && callbacks == 0
      requires (gracefulRequested <==> grace.Asked?) && (sentShutdown <==> shutdowns > 0)
      modifies this
      ensures Value() == Settle(Popped(old(Value()), first, failed)) && (onClosed <==> callbacks == 0)
      ensures (gracefulRequested <==> grace.Asked?) && (sentShutdown <==> shutdowns > 0)
      ensures pending == old(pending) - old(writeQueue)[0].reserved && overflowed == old(overflowed)
    {
      IdsEmpty(writeQueue);
      pending := pending - writeQueue[0].reserved;
      writeQueue := writeQueue[1..];
      written := written + [first];
      IdsEmpty(writeQueue);
      if writeQueue != [] {
        StartWrite();
      } else if gracefulRequested {
        ShutdownSendImpl(failed);
      }
    }

    /** The handler of the first outstanding write. */
    method HandleWrite(error: bool, failed: bool)
      requires Valid() && outstanding != []
      modifies this
      ensures Valid() && Value() == Settle(Wrote(old(Value()), error, failed)) && overflowed == old(overflowed)
      ensures pending == old(pending) - (if old(closed) then 0
                                         else if error then Bytes(old(writeQueue))
                                         else if old(writeQueue) == [] then 0 else old(writeQueue)[0].reserved)
    {
      WroteOk(Value(), error, failed);
      IdsEmpty(writeQueue);
      ghost var first := outstanding[0];
      outstanding := outstanding[1..];
      if closed {
        return;
      }
      if error {
        FinishClose();
        return;
      }
      PopFront(first, failed);
    }
  }
}
