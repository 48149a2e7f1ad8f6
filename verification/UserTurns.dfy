/** Every job in a line gets done, not only the first: each in its turn. */
module UserTurns {
  import opened UserServer
  import opened UserInvariants
  import opened UserSteps
  import opened UserProgress
  import opened UserLines

  // ---------------------------------------------------------------- in every run

  /** The labels in which the job that is first in line gets its due. */
  datatype Turn = Turn(first: seq<Label>, rest: seq<Label>)

  function AfterTurn(s: State, t: Turn): State { Run(Run(s, t.first), t.rest) }

  /** The turn takes the job that is first in session `sid`'s line, if there is one, as
      far as its posted continuation, and then holds the steps that it needs. */
  ghost predicate Serves(s: State, sid: nat, t: Turn)
  {
    && NoStop(t.first) && NoStop(t.rest)
    && (sid in s.sessions && LineOf(s, sid) != [] ==>
          var j := LineOf(s, sid)[0];
          && Approaches(s, t.first, sid, j)
          && UsefulIn(Run(s, t.first), t.rest, sid, j) >= NeededOf(Run(s, t.first), sid, j))
  }

  function AfterTurns(s: State, turns: seq<Turn>): State
    decreases |turns|
  {
    if turns == [] then s else AfterTurns(AfterTurn(s, turns[0]), turns[1..])
  }

  ghost predicate ServeAll(s: State, sid: nat, turns: seq<Turn>)
    decreases |turns|
  {
    turns != [] ==> Serves(s, sid, turns[0]) && ServeAll(AfterTurn(s, turns[0]), sid, turns[1..])
  }

  /** The timer runs exactly until the channel is stopped. */
  lemma {:induction false} StaysUp(s: State, labels: seq<Label>)
    ensures Run(s, labels).up <==> s.up && NoStop(labels)
    decreases |labels|
  {
    if labels != [] {
      NextUp(s, labels[0]);
      StaysUp(Next(s, labels[0]), labels[1..]);
      NoStopSplit(labels);
    }
  }

  lemma NoStopSplit(labels: seq<Label>)
    requires labels != []
    ensures NoStop(labels) <==> !labels[0].StopChannel? && NoStop(labels[1..])
  {
    if !labels[0].StopChannel? && NoStop(labels[1..]) {
      forall i | 0 <= i < |labels| ensures !labels[i].StopChannel? {
        assert i > 0 ==> labels[1..][i - 1] == labels[i];
      }
    }
  }

  lemma NextUp(s: State, l: Label)
    ensures Next(s, l).up <==> s.up && !l.StopChannel?
  {
    if l.Step? && l.session in s.sessions {
      StrandUp(s, l.session, l.cont, l.now);
    }
  }

  lemma StrandUp(s: State, sid: nat, n: nat, now: nat)
    requires sid in s.sessions
    ensures StrandStep(s, sid, n, now).up == s.up
  {
    if s.sessions[sid].phase.Idle? && IsHead(s.conts, n) {
      ContUp(s, sid, n);
    }
  }

  lemma ContUp(s: State, sid: nat, n: nat)
    requires sid in s.sessions && n in s.conts
    ensures RunCont(s, sid, n).up == s.up
  {
  }

  lemma TurnKeeps(s: State, t: Turn)
    requires Inv(s) && s.up && NoStop(t.first) && NoStop(t.rest)
    ensures Inv(AfterTurn(s, t)) && AfterTurn(s, t).up
  {
    RunKeeps(s, t.first);
    RunKeeps(Run(s, t.first), t.rest);
    StaysUp(s, t.first);
    StaysUp(Run(s, t.first), t.rest);
  }

  lemma {:induction false} RunAppend(s: State, a: seq<Label>, b: seq<Label>)
    ensures Run(s, a + b) == Run(Run(s, a), b)
    decreases |a|
  {
    if a == [] {
      assert a + b == b;
    } else {
      assert (a + b)[1..] == a[1..] + b;
      RunAppend(Next(s, a[0]), a[1..], b);
    }
  }

  /** A turn finishes the job that was first in line, and the others have moved up. */
  lemma TurnFinishes(s: State, sid: nat, t: Turn, i: nat) returns (k: nat)
    requires Inv(s) && s.up && sid in s.sessions && i < |LineOf(s, sid)| && Serves(s, sid, t)
    ensures
      var s' := AfterTurn(s, t);
      || s'.fault || IsOver(s', LineOf(s, sid)[i])
      || (sid in s'.sessions && k < i && k < |LineOf(s', sid)| && LineOf(s', sid)[k] == LineOf(s, sid)[i])
  {
    var s', q := AfterTurn(s, t), LineOf(s, sid);
    HeadIsFinished(s, sid, t);
    RunAppend(s, t.first, t.rest);
    var m, more := LinesMoveUp(s, t.first + t.rest, sid);
    k := if m <= i then i - m else 0;
    if !s'.fault && i >= m {
      assert LineOf(s', sid)[i - m] == q[i];
      if m == 0 {
        TurnKeeps(s, t);
        FirstIsNotOver(s', sid);
      }
    }
  }

  lemma HeadIsFinished(s: State, sid: nat, t: Turn)
    requires Inv(s) && s.up && sid in s.sessions && LineOf(s, sid) != [] && Serves(s, sid, t)
    ensures AfterTurn(s, t).fault || IsOver(AfterTurn(s, t), LineOf(s, sid)[0])
  {
    FirstIsNotOver(s, sid);
    HeadFinishes(s, sid, LineOf(s, sid)[0], t.first, t.rest);
  }

  lemma {:induction false} TurnsStay(s: State, sid: nat, turns: seq<Turn>, j: nat)
    requires Inv(s) && s.up && ServeAll(s, sid, turns) && (s.fault || IsOver(s, j))
    ensures AfterTurns(s, turns).fault || IsOver(AfterTurns(s, turns), j)
    decreases |turns|
  {
    if turns != [] {
      var t, s1 := turns[0], AfterTurn(s, turns[0]);
      TurnKeeps(s, t);
      TurnStays(s, t, j);
      TurnsStay(s1, sid, turns[1..], j);
    }
  }

  lemma TurnStays(s: State, t: Turn, j: nat)
    requires Inv(s) && (s.fault || IsOver(s, j))
    ensures AfterTurn(s, t).fault || IsOver(AfterTurn(s, t), j)
  {
    RunKeeps(s, t.first);
    if s.fault {
      RunFaulty(s, t.first);
      RunFaulty(Run(s, t.first), t.rest);
    } else {
      RunStaysOver(s, t.first, j);
      RunStaysOver(Run(s, t.first), t.rest, j);
    }
  }

  /** Whatever else happens while the channel is not stopped: after as many turns, each
      of which gives the job that is then first in line its due, as there are jobs up to
      and including it, a job in the line is over, unless the server has faulted on a
      response of the wrong kind. */
  lemma {:induction false} LineFinishes(s: State, sid: nat, turns: seq<Turn>, i: nat)
    requires Inv(s) && s.up && sid in s.sessions && i < |LineOf(s, sid)| && i < |turns| && ServeAll(s, sid, turns)
    ensures AfterTurns(s, turns).fault || IsOver(AfterTurns(s, turns), LineOf(s, sid)[i])
    decreases i
  {
    var t, s1, j := turns[0], AfterTurn(s, turns[0]), LineOf(s, sid)[i];
    TurnKeeps(s, t);
    var k := TurnFinishes(s, sid, t, i);
    if s1.fault || IsOver(s1, j) {
      TurnsStay(s1, sid, turns[1..], j);
    } else {
      LineFinishes(s1, sid, turns[1..], k);
    }
  }

  // ---------------------------------------------------------------- and it can always be had

  lemma ByItselfAppend(a: seq<Label>, b: seq<Label>, sid: nat)
    requires AllByItself(a, sid) && AllByItself(b, sid)
    ensures AllByItself(a + b, sid)
  {
  }

  lemma NeverStops(labels: seq<Label>, sid: nat)
    requires AllByItself(labels, sid)
    ensures NoStop(labels)
  {
  }

  /** The first in line can always be finished by the clock, the callbacks and its own
      strand. */
  lemma SomeTurn(s: State, sid: nat) returns (t: Turn)
    requires Inv(s) && s.up && sid in s.sessions && LineOf(s, sid) != []
    ensures AllByItself(t.first, sid) && AllByItself(t.rest, sid) && (AfterTurn(s, t).fault || Serves(s, sid, t))
  {
    var j := LineOf(s, sid)[0];
    FirstIsNotOver(s, sid);
    var first := CanApproach(s, sid, j);
    NeverStops(first, sid);
    t := Turn(first, []);
    if !Run(s, first).fault {
      RunKeeps(s, first);
      FirstPart(s, first, sid, j);
      var rest := CanFinish(Run(s, first), sid, j);
      NeverStops(rest, sid);
      t := Turn(first, rest);
    }
  }

  lemma {:induction false} LineCanFinish(s: State, sid: nat, i: nat) returns (labels: seq<Label>)
    requires Inv(s) && s.up && sid in s.sessions && i < |LineOf(s, sid)|
    ensures AllByItself(labels, sid)
    ensures Run(s, labels).fault || IsOver(Run(s, labels), LineOf(s, sid)[i])
    decreases i
  {
    var j := LineOf(s, sid)[i];
    var t := SomeTurn(s, sid);
    ByItselfAppend(t.first, t.rest, sid);
    RunAppend(s, t.first, t.rest);
    labels := t.first + t.rest;
    var s1 := AfterTurn(s, t);
    if !s1.fault {
      TurnKeeps(s, t);
      var k := TurnFinishes(s, sid, t, i);
      if !IsOver(s1, j) {
        var more := LineCanFinish(s1, sid, k);
        ByItselfAppend(labels, more, sid);
        RunAppend(s, labels, more);
        labels := labels + more;
      }
    }
  }

  // ---------------------------------------------------------------- getting into the line

  /** The continuations of session `sid` up to number `n`. */
  function Mine(conts: Conts, sid: nat, n: nat): set<nat>
  {
    set k | k in conts && conts[k].session == sid && k <= n
  }

  function Busy(phase: Phase): nat
  {
    match phase
    case Starting(_) => 2
    case Sending(_) => 1
    case _ => 0
  }

  lemma FewerMine(conts: Conts, sid: nat, n: nat, m: nat)
    requires m in conts && conts[m].session == sid && m <= n
    ensures |Mine(conts - {m}, sid, n)| < |Mine(conts, sid, n)|
  {
    assert Mine(conts - {m}, sid, n) == Mine(conts, sid, n) - {m};
  }

  /** A strand that is in the middle of something comes nearer to being idle. */
  lemma BusyStep(s: State, sid: nat)
    requires Inv(s) && sid in s.sessions && !s.sessions[sid].phase.Idle?
    ensures
      var s' := StrandStep(s, sid, 0, 0);
      && sid in s'.sessions && s'.conts == s.conts
      && (|LineOf(s', sid)| < |LineOf(s, sid)|
          || (|LineOf(s', sid)| == |LineOf(s, sid)| && Busy(s'.sessions[sid].phase) < Busy(s.sessions[sid].phase)))
  {
    PhaseFirst(s, sid);
    match s.sessions[sid].phase {
      case Starting(j) =>
        HeadHolds(s, sid, j);
        StartsBusy(s, sid, j);
      case Sending(j) =>
        HeadHolds(s, sid, j);
        SendsBusy(s, sid, j);
      case Cancelling(l) =>
        HeadHolds(s, sid, l[0]);
        CancelsBusy(s, sid, l);
    }
  }

  lemma SendsBusy(s: State, sid: nat, j: nat)
    requires HeadFacts(s, sid, j) && s.sessions[sid].phase == Sending(j)
    ensures
      s.jobs[j].call.Some? && var s' := SendOut(s, sid, j);
      sid in s'.sessions && s'.conts == s.conts && LineOf(s', sid) == LineOf(s, sid) && s'.sessions[sid].phase.Idle?
  {
  }

  lemma CancelsBusy(s: State, sid: nat, l: seq<nat>)
    requires l != [] && HeadFacts(s, sid, l[0]) && s.sessions[sid].phase == Cancelling(l)
    ensures
      var s' := CancelNext(s, sid, l);
      sid in s'.sessions && s'.conts == s.conts && LineOf(s', sid) == l[1..]
  {
    CancelLine(s, sid, l);
  }

  lemma StartsBusy(s: State, sid: nat, j: nat)
    requires HeadFacts(s, sid, j) && s.sessions[sid].phase == Starting(j)
    ensures
      var s' := StartJob(s, sid, j, 0);
      sid in s'.sessions && s'.conts == s.conts &&
      if s.jobs[j].kind.LocalJob? then LineOf(s', sid) == LineOf(s, sid)[1..]
      else LineOf(s', sid) == LineOf(s, sid) && s'.sessions[sid].phase.Sending?
  {
  }

  lemma OneLabel(s: State, l: Label, rest: seq<Label>, sid: nat)
    requires ByItself(l, sid) && AllByItself(rest, sid)
    ensures AllByItself([l] + rest, sid) && Run(s, [l] + rest) == Run(Next(s, l), rest)
  {
    assert ([l] + rest)[1..] == rest;
  }

  /** Its strand is nearer to pushing job `j`. */
  ghost predicate Sooner(s: State, s': State, sid: nat, j: nat)
    requires sid in s.sessions && sid in s'.sessions
  {
    var mine, mine' := |Mine(s.conts, sid, j)|, |Mine(s'.conts, sid, j)|;
    || mine' < mine
    || (mine' == mine
        && (|LineOf(s', sid)| < |LineOf(s, sid)|
            || (|LineOf(s', sid)| == |LineOf(s, sid)| && Busy(s'.sessions[sid].phase) < Busy(s.sessions[sid].phase))))
  }

  lemma IdleSooner(s: State, sid: nat, j: nat, n: nat)
    requires Inv(s) && sid in s.sessions && s.sessions[sid].phase.Idle? && IsHead(s.conts, n) && s.conts[n].session == sid && n <= j
    ensures var s' := Next(s, Step(sid, n, 0)); sid in s'.sessions && Sooner(s, s', sid, j)
  {
    StepIsCont(s, sid, n);
    ContHolds(s, sid, n);
    ContShrinks(s, sid, n);
    ContSooner(s, RunCont(s, sid, n), sid, j, n);
  }

  lemma StepIsCont(s: State, sid: nat, n: nat)
    requires sid in s.sessions && s.sessions[sid].phase.Idle? && IsHead(s.conts, n) && s.conts[n].session == sid
    ensures Next(s, Step(sid, n, 0)) == RunCont(s, sid, n)
  {
  }

  lemma ContShrinks(s: State, sid: nat, n: nat)
    requires Inv(s) && ContFacts(s, sid, n)
    ensures sid in RunCont(s, sid, n).sessions && RunCont(s, sid, n).conts == s.conts - {n}
  {
    ContMovesLine(s, sid, n, 0);
  }

  lemma ContSooner(s: State, s': State, sid: nat, j: nat, n: nat)
    requires sid in s.sessions && sid in s'.sessions && n in s.conts && s.conts[n].session == sid && n <= j && s'.conts == s.conts - {n}
    ensures Sooner(s, s', sid, j)
  {
    FewerMine(s.conts, sid, j, n);
  }

  lemma BusySooner(s: State, sid: nat, j: nat)
    requires Inv(s) && sid in s.sessions && !s.sessions[sid].phase.Idle?
    ensures var s' := Next(s, Step(sid, 0, 0)); sid in s'.sessions && Sooner(s, s', sid, j)
  {
    BusyStep(s, sid);
    StepIsStrand(s, sid);
  }

  lemma StepIsStrand(s: State, sid: nat)
    requires sid in s.sessions
    ensures Next(s, Step(sid, 0, 0)) == StrandStep(s, sid, 0, 0)
  {
  }

  lemma PushStep(s: State, sid: nat, j: nat) returns (l: Label)
    requires Inv(s) && sid in s.sessions && ToBePushed(s, j) && s.jobs[j].session == sid
    ensures ByItself(l, sid) && sid in Next(s, l).sessions && Sooner(s, Next(s, l), sid, j)
  {
    if s.sessions[sid].phase.Idle? {
      var n := HeadCont(s.conts, j);
      IdleSooner(s, sid, j, n);
      l := Step(sid, n, 0);
    } else {
      BusySooner(s, sid, j);
      l := Step(sid, 0, 0);
    }
  }

  /** A job still to be pushed gets into the line, or is finished, by steps of its own
      strand alone. */
  lemma {:induction false} CanBePushed(s: State, sid: nat, j: nat) returns (labels: seq<Label>)
    requires Inv(s) && sid in s.sessions && ToBePushed(s, j) && s.jobs[j].session == sid
    ensures AllByItself(labels, sid)
    ensures
      var s' := Run(s, labels);
      j in s'.jobs && s'.jobs[j].session == sid && sid in s'.sessions && (IsOver(s', j) || j in LineOf(s', sid))
    decreases |Mine(s.conts, sid, j)|, |LineOf(s, sid)|, Busy(s.sessions[sid].phase)
  {
    var l := PushStep(s, sid, j);
    NextKeeps(s, l);
    PushStays(s, l, j);
    labels := [];
    if ToBePushed(Next(s, l), j) {
      labels := CanBePushed(Next(s, l), sid, j);
    } else {
      PushRuns(s, l, j);
    }
    OneLabel(s, l, labels, sid);
    labels := [l] + labels;
  }

  /** Every job of every reachable state, wherever it is, can be finished by the clock,
      the callbacks and steps of its own session's strand, and nothing else, while the
      channel's timer runs. */
  lemma EveryJobCanFinish(s: State, j: nat) returns (labels: seq<Label>)
    requires Inv(s) && AllSomewhere(s) && s.up && j in s.jobs
    ensures AllByItself(labels, s.jobs[j].session)
    ensures Run(s, labels).fault || IsOver(Run(s, labels), j)
  {
    var sid := s.jobs[j].session;
    labels := [];
    assert Somewhere(s, j) && sid in s.sessions;
    if ToBePushed(s, j) {
      labels := CanBePushed(s, sid, j);
    }
    var s1 := Run(s, labels);
    RunKeeps(s, labels);
    NeverStops(labels, sid);
    StaysUp(s, labels);
    if !IsOver(s1, j) {
      var i :| 0 <= i < |LineOf(s1, sid)| && LineOf(s1, sid)[i] == j;
      var more := LineCanFinish(s1, sid, i);
      ByItselfAppend(labels, more, sid);
      RunAppend(s, labels, more);
      labels := labels + more;
    }
  }
}
