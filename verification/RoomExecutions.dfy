/** Which of a run's labels execute a request: for every request of the Room server, the
    one step in which it changes the membership, or none. */
module RoomExecutions {
  import opened QueuedRequests
  import opened Rooms
  import opened RoomServer
  import opened RoomInvariants
  import opened RoomChannel
  import opened RoomTheorems
  import opened RoomHistory

  /** The strand comes to request `n`, which waits, and the room would take it. */
  ghost predicate Begins(s: State, l: Label, n: nat)
  {
    && OwnLabel(l, n) && IsHead(s.items, s.strandOf, n) && Waits(s.items[n]) && s.items[n].room in s.rooms
    && Takes(s.rooms[s.items[n].room], s.items[n].req.request)
  }

  /** A create that is admitted by a manager which is not stopping. */
  ghost predicate Creates(p: Setup, s: State, l: Label, n: nat)
    requires p.strands > 0
  {
    && l.Receive? && l.message.Ask? && l.message.request.CreateRoom? && !s.mgr.stopping
    && Appears(s.items, Next(p, s, l).items, n)
  }

  ghost predicate Executes(p: Setup, s: State, l: Label, n: nat)
    requires p.strands > 0
  {
    Creates(p, s, l, n) || (Begins(s, l, n) && s.items[n].req.ticket.Queued?)
  }

  predicate Executed(t: Item) { IsRequest(t) && ReqOf(t).execs == 1 }

  // ---------------------------------------------------------------- one step

  lemma BeginExecutes(t: Item, room: Room)
    requires t.Work? && !t.req.request.CreateRoom?
    ensures
      var t' := Begin(t, room).0;
      t'.Work? && t'.req.execs == t.req.execs + if t.req.ticket.Queued? && Takes(room, t.req.request) then 1 else 0
  {
  }

  lemma CompleteExecutes(t: Item, retired: bool)
    requires t.Work? && t.phase.Completing?
    ensures IsRequest(Complete(t, retired)) && ReqOf(Complete(t, retired)).execs == t.req.execs
  {
  }

  lemma WorkExecutes(p: Setup, s: State, n: nat, now: nat)
    requires n in s.items && s.items[n].Work? && s.items[n].room in s.rooms && ItemOk(s.items[n])
    ensures
      var items' := RunWork(p, s, n, now).items;
      && n in items' && IsRequest(items'[n])
      && ReqOf(items'[n]).execs == s.items[n].req.execs +
           if Waits(s.items[n]) && s.items[n].req.ticket.Queued? && Takes(s.rooms[s.items[n].room], s.items[n].req.request)
           then 1 else 0
  {
    var t := s.items[n];
    match t.phase {
      case Waiting => BeginExecutes(t, s.rooms[t.room]);
      case Completing(_, _, _) => CompleteExecutes(t, Holds(s.reg, t.req.key, n));
      case _ =>
    }
  }

  lemma OwnExecutes(p: Setup, s: State, n: nat, now: nat)
    requires p.strands > 0 && n in s.items && IsRequest(s.items[n]) && ItemOk(s.items[n])
    ensures
      var items' := RunTask(p, s, n, now).items;
      && n in items'
      && (Executed(items'[n]) <==>
            Executed(s.items[n]) || (Begins(s, StrandStep(n, now), n) && s.items[n].req.ticket.Queued?))
  {
    if IsHead(s.items, s.strandOf, n) && s.items[n].room in s.rooms {
      WorkExecutes(p, s, n, now);
    }
  }

  lemma StepExecutes(p: Setup, s: State, l: Label, n: nat)
    requires p.strands > 0 && n in s.items && n < s.next && IsRequest(s.items[n]) && ItemOk(s.items[n])
    ensures n in Next(p, s, l).items
    ensures Executed(Next(p, s, l).items[n]) <==> Executed(s.items[n]) || Executes(p, s, l, n)
  {
    if OwnLabel(l, n) {
      OwnExecutes(p, s, n, l.now);
    } else {
      OthersLeaveItAlone(p, s, l, n);
    }
  }

  lemma NewExecutes(p: Setup, s: State, l: Label, n: nat)
    requires p.strands > 0 && Appears(s.items, Next(p, s, l).items, n)
    ensures Executed(Next(p, s, l).items[n]) <==> Executes(p, s, l, n)
  {
    RoomAppears(p, s, l, n);
  }

  lemma AbsentExecutes(p: Setup, s: State, l: Label, n: nat)
    requires p.strands > 0 && !(n in Next(p, s, l).items && IsRequest(Next(p, s, l).items[n]))
    requires n in s.items && IsRequest(s.items[n]) ==> ItemOk(s.items[n]) && n < s.next
    ensures !Executes(p, s, l, n)
  {
    if n in s.items && IsRequest(s.items[n]) {
      if OwnLabel(l, n) {
        OwnStep(p, s, n, l.now);
      } else {
        OthersLeaveItAlone(p, s, l, n);
      }
    }
  }

  // ---------------------------------------------------------------- every run

  /** Some label of the run executes request `n`. */
  ghost predicate SomeExecutes(p: Setup, s: State, labels: seq<Label>, n: nat)
    requires p.strands > 0
    decreases |labels|
  {
    labels != [] && (Executes(p, s, labels[0], n) || SomeExecutes(p, Next(p, s, labels[0]), labels[1..], n))
  }

  ghost predicate IsExecuted(s: State, n: nat)
  {
    n in s.items && Executed(s.items[n])
  }

  lemma OneExecutes(p: Setup, s: State, l: Label, n: nat)
    requires p.strands > 0 && (n in s.items ==> ItemOk(s.items[n]) && n < s.next)
    ensures IsExecuted(Next(p, s, l), n) <==> IsExecuted(s, n) || Executes(p, s, l, n)
  {
    if n in s.items && IsRequest(s.items[n]) {
      StepExecutes(p, s, l, n);
    } else if Appears(s.items, Next(p, s, l).items, n) {
      NewExecutes(p, s, l, n);
    } else {
      AbsentExecutes(p, s, l, n);
    }
  }

  lemma {:induction false} RunExecutes(p: Setup, s: State, labels: seq<Label>, n: nat)
    requires p.strands > 0 && Inv(p, s)
    ensures IsExecuted(Run(p, s, labels), n) <==> IsExecuted(s, n) || SomeExecutes(p, s, labels, n)
    decreases |labels|
  {
    if labels != [] {
      ItemFacts(p, s, n);
      OneExecutes(p, s, labels[0], n);
      NextKeeps(p, s, labels[0]);
      RunExecutes(p, Next(p, s, labels[0]), labels[1..], n);
    }
  }

  lemma ItemFacts(p: Setup, s: State, n: nat)
    requires Inv(p, s)
    ensures n in s.items ==> ItemOk(s.items[n]) && n < s.next
  {
  }

  // ---------------------------------------------------------------- by its label

  /** Label `k` executes request `n`. */
  ghost predicate ExecutesAt(p: Setup, labels: seq<Label>, k: nat, n: nat)
    requires p.strands > 0
  {
    k < |labels| && Executes(p, Run(p, Start(), labels[..k]), labels[k], n)
  }

  lemma {:induction false} SomeLabel(p: Setup, before: seq<Label>, labels: seq<Label>, n: nat)
    requires p.strands > 0
    ensures SomeExecutes(p, Run(p, Start(), before), labels, n) <==>
            exists k :: |before| <= k && ExecutesAt(p, before + labels, k, n)
    decreases |labels|
  {
    if labels != [] {
      var all, first := before + labels, before + [labels[0]];
      assert first + labels[1..] == all;
      assert all[..|before|] == before && all[|before|] == labels[0];
      RunSnoc(p, Start(), before, labels[0]);
      SomeLabel(p, first, labels[1..], n);
      if SomeExecutes(p, Run(p, Start(), before), labels, n) {
        if Executes(p, Run(p, Start(), before), labels[0], n) {
          assert ExecutesAt(p, all, |before|, n);
        } else {
          var k :| |first| <= k && ExecutesAt(p, all, k, n);
          assert |before| <= k;
        }
      }
      if k :| |before| <= k && ExecutesAt(p, all, k, n) {
        if k > |before| {
          assert |first| <= k;
        }
      }
    }
  }

  // ---------------------------------------------------------------- by the messages before

  /** No cancel with the key of request `n` came between the message that brought it and
      label `k`. */
  ghost predicate NoCancelSince(p: Setup, labels: seq<Label>, k: nat, n: nat)
    requires p.strands > 0 && k <= |labels|
  {
    forall m: nat :: m < k && Brings(p, labels[..m], labels[m], n) ==> !AnyCancel(labels[m + 1..k], KeyOf(labels[m]))
  }

  lemma QueuedSince(p: Setup, labels: seq<Label>, k: nat, m: nat, n: nat)
    requires p.strands > 0 && m < k <= |labels| && Brings(p, labels[..m], labels[m], n)
    requires var s := Run(p, Start(), labels[..k]); n in s.items && Waits(s.items[n])
    ensures Run(p, Start(), labels[..k]).items[n].req.ticket.Queued? <==> !AnyCancel(labels[m + 1..k], KeyOf(labels[m]))
  {
    RunSince(p, labels, k, m);
    RaceIsDecidedAtBegin(p, labels[..m], labels[m], labels[m + 1..k], n, 0);
  }

  lemma RunSince(p: Setup, labels: seq<Label>, k: nat, m: nat)
    requires p.strands > 0 && m < k <= |labels|
    ensures Run(p, Run(p, Start(), labels[..m] + [labels[m]]), labels[m + 1..k]) == Run(p, Start(), labels[..k])
  {
    assert labels[..k] == labels[..m] + [labels[m]] + labels[m + 1..k];
    RunAppend(p, Start(), labels[..m] + [labels[m]], labels[m + 1..k]);
  }

  lemma QueuedIs(p: Setup, labels: seq<Label>, k: nat, n: nat)
    requires p.strands > 0 && k <= |labels|
    requires var s := Run(p, Start(), labels[..k]); n in s.items && Waits(s.items[n])
    ensures Run(p, Start(), labels[..k]).items[n].req.ticket.Queued? <==> NoCancelSince(p, labels, k, n)
  {
    var m := EveryRequestWasBrought(p, labels[..k], n);
    assert labels[..k][..m] == labels[..m];
    assert Brings(p, labels[..m], labels[m], n);
    QueuedSince(p, labels, k, m, n);
    forall m: nat | m < k && Brings(p, labels[..m], labels[m], n)
      ensures Run(p, Start(), labels[..k]).items[n].req.ticket.Queued? ==> !AnyCancel(labels[m + 1..k], KeyOf(labels[m]))
    {
      QueuedSince(p, labels, k, m, n);
    }
  }

  /** Label `k` creates the room that request `n` asked for, or is the step in which its
      strand comes to it: the room takes it, and no cancel for it has come since the
      message that brought it. */
  ghost predicate TakesEffectAt(p: Setup, labels: seq<Label>, k: nat, n: nat)
    requires p.strands > 0
  {
    && k < |labels|
    && var s := Run(p, Start(), labels[..k]);
       Creates(p, s, labels[k], n) || (Begins(s, labels[k], n) && NoCancelSince(p, labels, k, n))
  }

  lemma SameLabel(p: Setup, labels: seq<Label>, k: nat, n: nat)
    requires p.strands > 0
    ensures ExecutesAt(p, labels, k, n) <==> TakesEffectAt(p, labels, k, n)
  {
    if k < |labels| && Begins(Run(p, Start(), labels[..k]), labels[k], n) {
      QueuedIs(p, labels, k, n);
    }
  }

  /** Exactly when a request is executed, in every run and whatever becomes of it: if and
      only if one of the labels created its room, or was the step in which its strand
      came to it, the room took it, and no cancel for it had come since the message that
      brought it. */
  lemma ExecutedExactly(p: Setup, labels: seq<Label>, n: nat)
    requires p.strands > 0
    ensures IsExecuted(Run(p, Start(), labels), n) <==> exists k :: TakesEffectAt(p, labels, k, n)
  {
    StartIsSound(p);
    RunExecutes(p, Start(), labels, n);
    SomeLabel(p, [], labels, n);
    assert [] + labels == labels;
    if k :| ExecutesAt(p, labels, k, n) {
      SameLabel(p, labels, k, n);
    }
    if k :| TakesEffectAt(p, labels, k, n) {
      SameLabel(p, labels, k, n);
    }
  }
}
