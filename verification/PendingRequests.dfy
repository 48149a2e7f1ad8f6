/** The User server's side of a Room request: the table of requests that await a
    response, and the messages that go out for them. Time is an argument; the table's
    deadline is `TIMEOUT` after sending.

    A request is entered in the table before its message is handed out, and taken out
    of it before its cancel is; other threads may move in between. So the cancel of a
    request may leave before the request itself. */
module PendingRequests {
  import opened Basics

  const TIMEOUT: nat := 5000

  /** What ended a request. Only a response and a timeout call its owner back. */
  datatype Fate = Responded(at: nat) | TimedOut(at: nat) | Withdrawn | Cleared

  datatype Out = Sent(id: nat) | CancelSent(id: nat)

  /** `pending` maps ids to deadlines; the message of an id in `unsent` has not been
      handed out, and the cancel of one in `owing` has not; `fates` lists, per id
      issued, everything that ended it, and `due` remembers its deadline. */
  datatype Channel = Channel(
    pending: map<nat, nat>,
    nextId: nat,
    unsent: set<nat>,
    owing: set<nat>,
    out: seq<Out>,
    fates: map<nat, seq<Fate>>,
    due: map<nat, nat>)

  function Start(): Channel { Channel(map[], 1, {}, {}, [], map[], map[]) }

  /** A fresh id is entered in the table. */
  function Enter(c: Channel, now: nat): Channel
  {
    var id := c.nextId;
    Channel(if id in c.pending then c.pending else c.pending[id := now + TIMEOUT], id + 1, c.unsent + {id}, c.owing, c.out,
            c.fates[id := []], c.due[id := now + TIMEOUT])
  }

  function HandOut(c: Channel, id: nat): Channel
  {
    if id !in c.unsent then c else c.(unsent := c.unsent - {id}, out := c.out + [Sent(id)])
  }

  function Met(fates: map<nat, seq<Fate>>, id: nat, f: Fate): map<nat, seq<Fate>>
  {
    fates[id := (if id in fates then fates[id] else []) + [f]]
  }

  /** Take `id` out of the table and let `f` happen to it. */
  function Take(c: Channel, id: nat, f: Fate): Channel
    requires id in c.pending
  {
    c.(pending := c.pending - {id}, fates := Met(c.fates, id, f), owing := c.owing + if Cancels(f) then {id} else {})
  }

  predicate Cancels(f: Fate) { f.TimedOut? || f.Withdrawn? }

  function Complete(c: Channel, id: nat, now: nat): Channel
  {
    if id !in c.pending then c
    else Take(c, id, if now >= c.pending[id] then TimedOut(now) else Responded(now))
  }

  function Cancel(c: Channel, id: nat): Channel
  {
    if id !in c.pending then c else Take(c, id, Withdrawn)
  }

  /** The cancel of a request that was called off goes out. */
  function CallOff(c: Channel, id: nat): Channel
  {
    if id !in c.owing then c else c.(owing := c.owing - {id}, out := c.out + [CancelSent(id)])
  }

  function Expired(pending: map<nat, nat>, now: nat): set<nat>
  {
    set id | id in pending && pending[id] <= now
  }

  function MetAll(fates: map<nat, seq<Fate>>, ids: set<nat>, f: Fate): map<nat, seq<Fate>>
  {
    map id | id in fates.Keys + ids :: if id in ids then Met(fates, id, f)[id] else fates[id]
  }

  /** All that are due are taken at once. */
  function Expire(c: Channel, now: nat): Channel
  {
    var ids := Expired(c.pending, now);
    c.(pending := c.pending - ids, fates := MetAll(c.fates, ids, TimedOut(now)), owing := c.owing + ids)
  }

  function Drop(c: Channel, id: nat): Channel
  {
    if id !in c.pending then c else Take(c, id, Cleared)
  }

  function Clear(c: Channel): Channel
  {
    c.(pending := map[], fates := MetAll(c.fates, c.pending.Keys, Cleared))
  }

  /** One thread's whole response to a message or a withdrawal. */
  function Settle(c: Channel, c': Channel, id: nat): Channel
  {
    if id in c.pending then CallOff(c', id) else c
  }

  function CallOffAll(c: Channel, ids: seq<nat>): Channel
    decreases |ids|
  {
    if ids == [] then c else CallOffAll(CallOff(c, ids[0]), ids[1..])
  }

  // ---------------------------------------------------------------- ascending ids

  ghost function Least(ids: set<nat>): (id: nat)
    requires ids != {}
    ensures IsLeast(id, ids)
  {
    LeastExists(ids);
    var id :| IsLeast(id, ids);
    id
  }

  ghost function Ascending(ids: set<nat>): seq<nat>
    decreases |ids|
  {
    if ids == {} then [] else [Least(ids)] + Ascending(ids - {Least(ids)})
  }

  lemma {:induction false} AscendingSorts(ids: set<nat>)
    ensures Increasing(Ascending(ids)) && Elements(Ascending(ids)) == ids
    decreases |ids|
  {
    if ids != {} {
      var id := Least(ids);
      AscendingSorts(ids - {id});
      Prepend(id, Ascending(ids - {id}));
    }
  }

  lemma Prepend(id: nat, s: seq<nat>)
    requires Increasing(s) && forall k :: k in Elements(s) ==> id < k
    ensures Increasing([id] + s) && Elements([id] + s) == {id} + Elements(s)
  {
    forall i, j | 0 <= i < j < |s| + 1 ensures ([id] + s)[i] < ([id] + s)[j] {
      assert s[j - 1] in Elements(s);
    }
  }

  lemma ScanStart(pending: map<nat, nat>, all: set<nat>)
    requires all <= pending.Keys
    ensures all == all * pending.Keys && pending - (all - all) == pending
  {
  }

  /** One step of the scan over the table: `left` are the expired ids not yet seen. */
  lemma ScanStep(pending: map<nat, nat>, now: nat, left: set<nat>, unseen: set<nat>, id: nat)
    requires unseen <= pending.Keys && left == Expired(pending, now) * unseen && IsLeast(id, unseen)
    ensures var all := Expired(pending, now);
      && id in pending && id !in all - left
      && (if pending[id] <= now then
            && Ascending(left) == [id] + Ascending(left - {id})
            && left - {id} == all * (unseen - {id})
            && pending - (all - left) - {id} == pending - (all - (left - {id}))
          else left == all * (unseen - {id}))
  {
    if pending[id] <= now {
      assert IsLeast(id, left);
    }
  }

  lemma ScanEnd(pending: map<nat, nat>, all: set<nat>, left: set<nat>)
    requires left == all * {}
    ensures Ascending(left) == [] && pending - (all - left) == pending - all
  {
    assert left == {} && all - left == all;
  }

  function Elements(s: seq<nat>): set<nat> { set id | id in s }

  function CancelAll(ids: seq<nat>): seq<Out>
  {
    if ids == [] then [] else [CancelSent(ids[0])] + CancelAll(ids[1..])
  }

  // ---------------------------------------------------------------- what was said of an id

  function About(out: seq<Out>, id: nat): seq<Out>
  {
    if out == [] then []
    else (if out[0].id == id then [out[0]] else []) + About(out[1..], id)
  }

  lemma {:induction false} AboutAppend(a: seq<Out>, b: seq<Out>, id: nat)
    ensures About(a + b, id) == About(a, id) + About(b, id)
    decreases |a|
  {
    if a == [] {
      assert a + b == b;
    } else {
      assert (a + b)[0] == a[0] && (a + b)[1..] == a[1..] + b;
      AboutAppend(a[1..], b, id);
      var first := if a[0].id == id then [a[0]] else [];
      assert first + (About(a[1..], id) + About(b, id)) == first + About(a[1..], id) + About(b, id);
    }
  }

  /** Called off one after the other, each once. */
  lemma {:induction false} CallOffEach(c: Channel, ids: seq<nat>)
    requires Increasing(ids) && Elements(ids) <= c.owing
    ensures CallOffAll(c, ids) == c.(owing := c.owing - Elements(ids), out := c.out + CancelAll(ids))
    decreases |ids|
  {
    if ids == [] {
      assert c.out + [] == c.out && c.owing - Elements(ids) == c.owing;
    } else {
      TailElements(ids);
      CallOffEach(CallOff(c, ids[0]), ids[1..]);
      LessBoth(c.owing, Elements(ids), ids[0]);
      Longer(c.out, CancelSent(ids[0]), CancelAll(ids[1..]));
    }
  }

  lemma LessBoth(a: set<nat>, b: set<nat>, x: nat)
    requires x in b
    ensures a - {x} - (b - {x}) == a - b
  {
  }

  lemma Longer(a: seq<Out>, x: Out, b: seq<Out>)
    ensures a + [x] + b == a + ([x] + b)
  {
  }

  lemma TailElements(ids: seq<nat>)
    requires Increasing(ids) && ids != []
    ensures ids[0] in Elements(ids) && Increasing(ids[1..]) && Elements(ids[1..]) == Elements(ids) - {ids[0]}
  {
    var rest := ids[1..];
    forall id ensures id in Elements(rest) <==> id in Elements(ids) - {ids[0]} {
      if id in Elements(rest) {
        var i :| 0 <= i < |rest| && rest[i] == id;
        assert ids[i + 1] == id && ids[0] < ids[i + 1];
      }
      if id in Elements(ids) - {ids[0]} {
        var i :| 0 <= i < |ids| && ids[i] == id;
        assert rest[i - 1] == id;
      }
    }
  }

  // ---------------------------------------------------------------- invariant

  /** The one end that request `id` has met, if it is no longer pending. */
  ghost predicate EndedOnce(pending: map<nat, nat>, fates: seq<Fate>, due: nat, id: nat)
  {
    if id in pending then fates == [] && pending[id] == due
    else
      && |fates| == 1
      && (fates[0].Responded? ==> fates[0].at < due)
      && (fates[0].TimedOut? ==> fates[0].at >= due)
  }

  predicate CalledOff(fates: seq<Fate>) { fates != [] && Cancels(fates[0]) }

  /** The messages about an id: its request once it is handed out, and one cancel once
      that is, in either order. */
  predicate Tells(about: seq<Out>, id: nat, sent: bool, cancelled: bool)
  {
    if sent && cancelled then about == [Sent(id), CancelSent(id)] || about == [CancelSent(id), Sent(id)]
    else about == if sent then [Sent(id)] else if cancelled then [CancelSent(id)] else []
  }

  /** The whole story of one id. */
  ghost predicate IdOk(c: Channel, id: nat)
  {
    if 1 <= id < c.nextId then
      && id in c.fates && id in c.due
      && EndedOnce(c.pending, c.fates[id], c.due[id], id)
      && (id in c.owing ==> CalledOff(c.fates[id]))
      && Tells(About(c.out, id), id, id !in c.unsent, CalledOff(c.fates[id]) && id !in c.owing)
    else id !in c.fates && id !in c.pending && id !in c.unsent && id !in c.owing && About(c.out, id) == []
  }

  ghost predicate Inv(c: Channel)
  {
    c.nextId >= 1 && forall id: nat :: IdOk(c, id)
  }

  // ---------------------------------------------------------------- runs

  /** The threads' steps, in any order: `CallOffOp` is what a timeout's callback and a
      successful withdrawal do; `DropOp` is `ClearOp` for one id. */
  datatype Op =
    | EnterOp(now: nat)
    | HandOutOp(id: nat)
    | CompleteOp(id: nat, now: nat)
    | ExpireOp(now: nat)
    | CancelOp(id: nat)
    | CallOffOp(id: nat)
    | DropOp(id: nat)
    | ClearOp

  function Apply(c: Channel, op: Op): Channel
  {
    match op
    case EnterOp(now) => Enter(c, now)
    case HandOutOp(id) => HandOut(c, id)
    case CompleteOp(id, now) => Complete(c, id, now)
    case ExpireOp(now) => Expire(c, now)
    case CancelOp(id) => Cancel(c, id)
    case CallOffOp(id) => CallOff(c, id)
    case DropOp(id) => Drop(c, id)
    case ClearOp => Clear(c)
  }

  function RunOps(c: Channel, ops: seq<Op>): Channel
    decreases |ops|
  {
    if ops == [] then c else RunOps(Apply(c, ops[0]), ops[1..])
  }

  /** The message that a step sends about `id`, if any. */
  function Says(c: Channel, op: Op, id: nat): seq<Out>
  {
    if op == HandOutOp(id) && id in c.unsent then [Sent(id)]
    else if op == CallOffOp(id) && id in c.owing then [CancelSent(id)]
    else []
  }

  lemma AboutGrows(c: Channel, op: Op, id: nat)
    ensures About(Apply(c, op).out, id) == About(c.out, id) + Says(c, op, id)
  {
    if op.HandOutOp? && op.id in c.unsent {
      AboutAppend(c.out, [Sent(op.id)], id);
    } else if op.CallOffOp? && op.id in c.owing {
      AboutAppend(c.out, [CancelSent(op.id)], id);
    }
  }

  lemma MessageKeepsId(c: Channel, op: Op, id: nat)
    requires IdOk(c, id) && (op.HandOutOp? || op.CallOffOp?)
    ensures IdOk(Apply(c, op), id)
  {
    AboutGrows(c, op, id);
  }

  lemma TakeKeepsId(c: Channel, k: nat, f: Fate, id: nat)
    requires k in c.pending && IdOk(c, id)
    requires f.Responded? ==> f.at < c.pending[k]
    requires f.TimedOut? ==> f.at >= c.pending[k]
    ensures IdOk(Take(c, k, f), id)
  {
  }

  lemma ExpireKeepsId(c: Channel, now: nat, id: nat)
    requires IdOk(c, id)
    ensures IdOk(Expire(c, now), id)
  {
  }

  lemma ClearKeepsId(c: Channel, id: nat)
    requires IdOk(c, id)
    ensures IdOk(Clear(c), id)
  {
  }

  lemma EnterKeepsId(c: Channel, now: nat, id: nat)
    requires c.nextId >= 1 && IdOk(c, id) && IdOk(c, c.nextId)
    ensures IdOk(Enter(c, now), id)
  {
  }

  lemma ApplyKeepsId(c: Channel, op: Op, id: nat)
    requires c.nextId >= 1 && IdOk(c, id) && IdOk(c, c.nextId)
    ensures IdOk(Apply(c, op), id)
  {
    match op {
      case EnterOp(now) => EnterKeepsId(c, now, id);
      case CompleteOp(k, now) =>
        if k in c.pending {
          TakeKeepsId(c, k, if now >= c.pending[k] then TimedOut(now) else Responded(now), id);
        }
      case CancelOp(k) =>
        if k in c.pending {
          TakeKeepsId(c, k, Withdrawn, id);
        }
      case DropOp(k) =>
        if k in c.pending {
          TakeKeepsId(c, k, Cleared, id);
        }
      case ExpireOp(now) => ExpireKeepsId(c, now, id);
      case ClearOp => ClearKeepsId(c, id);
      case _ => MessageKeepsId(c, op, id);
    }
  }

  lemma ApplyKeeps(c: Channel, op: Op)
    requires Inv(c)
    ensures Inv(Apply(c, op))
  {
    forall id: nat ensures IdOk(Apply(c, op), id) {
      assert IdOk(c, id) && IdOk(c, c.nextId);
      ApplyKeepsId(c, op, id);
    }
  }

  lemma {:induction false} RunOpsKeeps(c: Channel, ops: seq<Op>)
    requires Inv(c)
    ensures Inv(RunOps(c, ops))
    decreases |ops|
  {
    if ops != [] {
      ApplyKeeps(c, ops[0]);
      RunOpsKeeps(Apply(c, ops[0]), ops[1..]);
    }
  }

  lemma StartIsSound()
    ensures Inv(Start())
  {
    assert forall id: nat :: IdOk(Start(), id);
  }

  // ---------------------------------------------------------------- all that are due

  function CompleteEach(ids: seq<nat>, now: nat): seq<Op>
  {
    if ids == [] then [] else [CompleteOp(ids[0], now)] + CompleteEach(ids[1..], now)
  }

  lemma {:induction false} EachTimesOut(c: Channel, ids: seq<nat>, now: nat)
    requires Increasing(ids) && forall id :: id in Elements(ids) ==> id in c.pending && c.pending[id] <= now
    ensures RunOps(c, CompleteEach(ids, now)) ==
      c.(pending := c.pending - Elements(ids), fates := MetAll(c.fates, Elements(ids), TimedOut(now)),
         owing := c.owing + Elements(ids))
    decreases |ids|
  {
    if ids == [] {
      assert c.pending - {} == c.pending && MetAll(c.fates, {}, TimedOut(now)) == c.fates && c.owing + {} == c.owing;
    } else {
      var rest, c1 := Elements(ids[1..]), Complete(c, ids[0], now);
      TailElements(ids);
      assert CompleteEach(ids, now)[1..] == CompleteEach(ids[1..], now);
      EachTimesOut(c1, ids[1..], now);
      assert {ids[0]} + rest == Elements(ids);
      TakeRest(c, ids[0], rest, now);
    }
  }

  lemma TakeRest(c: Channel, id: nat, rest: set<nat>, now: nat)
    requires id in c.pending && c.pending[id] <= now && id !in rest
    ensures
      var c1 := Complete(c, id, now);
      && c1.pending - rest == c.pending - ({id} + rest) && c1.owing + rest == c.owing + ({id} + rest)
      && MetAll(c1.fates, rest, TimedOut(now)) == MetAll(c.fates, {id} + rest, TimedOut(now))
      && c1 == c.(pending := c1.pending, owing := c1.owing, fates := c1.fates)
  {
    MetFirst(c.fates, rest, id, TimedOut(now));
  }

  lemma MetFirst(fates: map<nat, seq<Fate>>, ids: set<nat>, id: nat, f: Fate)
    requires id !in ids
    ensures MetAll(Met(fates, id, f), ids, f) == MetAll(fates, {id} + ids, f)
  {
  }

  /** An expiry takes exactly the requests whose deadline is at or before its time, as if
      each were completed then: none of them is left, all others are. */
  lemma ExpireTakesAllDue(c: Channel, now: nat)
    ensures
      var c' := Expire(c, now);
      && (forall id :: id in c'.pending <==> id in c.pending && now < c.pending[id])
      && (forall id :: id in c'.pending ==> c'.pending[id] == c.pending[id])
      && exists ids :: (forall id :: id in ids <==> id in c.pending && c.pending[id] <= now)
                       && RunOps(c, CompleteEach(ids, now)) == c'
  {
    var due := Expired(c.pending, now);
    AscendingSorts(due);
    EachTimesOut(c, Ascending(due), now);
    assert forall id :: id in Ascending(due) <==> id in Elements(Ascending(due));
  }

  /** Clearing leaves nothing pending, and is the end of exactly what was: nobody else's
      fate changes, and no message goes out or will. */
  lemma ClearEndsAll(c: Channel, id: nat)
    ensures
      var c' := Clear(c);
      && c'.pending == map[] && c'.out == c.out && c'.owing == c.owing && c'.unsent == c.unsent
      && (id in c.pending ==> id in c'.fates && c'.fates[id] == (if id in c.fates then c.fates[id] else []) + [Cleared])
      && (id !in c.pending && id in c.fates ==> id in c'.fates && c'.fates[id] == c.fates[id])
  {
  }

  // ---------------------------------------------------------------- which message is first

  predicate CancelLeads(about: seq<Out>) { about != [] && about[0].CancelSent? }

  /** The cancel goes out, and the request has not. */
  predicate Early(c: Channel, op: Op, id: nat)
  {
    op == CallOffOp(id) && id in c.owing && id in c.unsent
  }

  predicate EarlyIn(c: Channel, ops: seq<Op>, id: nat)
    decreases |ops|
  {
    ops != [] && (Early(c, ops[0], id) || EarlyIn(Apply(c, ops[0]), ops[1..], id))
  }

  lemma OneLeads(c: Channel, op: Op, id: nat)
    requires IdOk(c, id)
    ensures CancelLeads(About(Apply(c, op).out, id)) <==> CancelLeads(About(c.out, id)) || Early(c, op, id)
  {
    AboutGrows(c, op, id);
  }

  lemma {:induction false} RunLeads(c: Channel, ops: seq<Op>, id: nat)
    requires Inv(c)
    ensures CancelLeads(About(RunOps(c, ops).out, id)) <==> CancelLeads(About(c.out, id)) || EarlyIn(c, ops, id)
    decreases |ops|
  {
    if ops != [] {
      assert IdOk(c, id);
      OneLeads(c, ops[0], id);
      ApplyKeeps(c, ops[0]);
      RunLeads(Apply(c, ops[0]), ops[1..], id);
    }
  }

  /** In every run each id issued is still pending or has met exactly one end: a
      response strictly before its deadline, a timeout at or after it, withdrawal, or
      the closing of the table. Its request message goes out once, when it is handed
      out; a cancel goes out, once, exactly if it timed out or was withdrawn and that
      has been followed up, so never together with a delivered response; the cancel is
      the first of the two if and only if it went out before the request was handed
      out; and no message bears an id that was not issued. */
  lemma ExactlyOneEnd(ops: seq<Op>, id: nat)
    ensures
      var c := RunOps(Start(), ops);
      if 1 <= id < c.nextId then
        && id in c.fates && id in c.due
        && EndedOnce(c.pending, c.fates[id], c.due[id], id)
        && Tells(About(c.out, id), id, id !in c.unsent, CalledOff(c.fates[id]) && id !in c.owing)
        && (CancelLeads(About(c.out, id)) <==> EarlyIn(Start(), ops, id))
      else id !in c.fates && id !in c.pending && About(c.out, id) == []
  {
    StartIsSound();
    RunOpsKeeps(Start(), ops);
    RunLeads(Start(), ops, id);
    assert IdOk(RunOps(Start(), ops), id);
  }

  // ---------------------------------------------------------------- object

  /** The channel as one thread sees it, with no other in between. */
  class UserRoomChannel {
    var requests: map<nat, nat>
    var nextRequestId: nat
    var outgoing: seq<Out>
    ghost var unsent: set<nat>
    ghost var owing: set<nat>
    ghost var fates: map<nat, seq<Fate>>
    ghost var due: map<nat, nat>

    ghost function Value(): Channel
      reads this
    {
      Channel(requests, nextRequestId, unsent, owing, outgoing, fates, due)
    }

    ghost predicate Valid()
      reads this
    {
      Inv(Value())
    }

    constructor ()
      ensures Valid() && Value() == Start()
    {
      requests, nextRequestId, unsent, owing, outgoing, fates, due := map[], 1, {}, {}, [], map[], map[];
      new;
      StartIsSound();
    }

    method SendRequest(now: nat) returns (id: nat)
      requires Valid()
      modifies this
      ensures Valid() && id == old(nextRequestId) && Value() == HandOut(Enter(old(Value()), now), id)
    {
      ghost var c := Value();
      ApplyKeeps(c, EnterOp(now));
      ApplyKeeps(Enter(c, now), HandOutOp(nextRequestId));
      id := nextRequestId;
      nextRequestId := nextRequestId + 1;
      if id !in requests {
        requests := requests[id := now + TIMEOUT];
      }
      fates := fates[id := []];
      due := due[id := now + TIMEOUT];
      unsent := unsent + {id};
      outgoing := outgoing + [Sent(id)];
      unsent := unsent - {id};
    }

    method SendCancel(id: nat)
      requires id in owing
      modifies this`outgoing, this`owing
      ensures Value() == CallOff(old(Value()), id)
    {
      outgoing := outgoing + [CancelSent(id)];
      owing := owing - {id};
    }

    method CompleteRequest(id: nat, now: nat)
      requires Valid()
      modifies this
      ensures Valid()
      ensures Value() == Settle(old(Value()), Complete(old(Value()), id, now), id)
    {
      ghost var c := Value();
      ApplyKeeps(c, CompleteOp(id, now));
      ApplyKeeps(Complete(c, id, now), CallOffOp(id));
      if id !in requests {
        return;
      }
      assert IdOk(c, id);
      var deadline := requests[id];
      requests := requests - {id};
      if now >= deadline {
        fates := Met(fates, id, TimedOut(now));
        owing := owing + {id};
        SendCancel(id);
      } else {
        fates := Met(fates, id, Responded(now));
        assert c.owing + {} == c.owing;
      }
    }

    method CancelRequest(id: nat)
      requires Valid()
      modifies this
      ensures Valid()
      ensures Value() == Settle(old(Value()), Cancel(old(Value()), id), id)
    {
      ghost var c := Value();
      ApplyKeeps(c, CancelOp(id));
      ApplyKeeps(Cancel(c, id), CallOffOp(id));
      if id in requests {
        requests := requests - {id};
        fates := Met(fates, id, Withdrawn);
        owing := owing + {id};
        SendCancel(id);
      }
    }

    /** The ids due, taken out of the table in ascending order. */
    method TakeExpired(now: nat) returns (expired: seq<nat>)
      modifies this`requests
      ensures expired == Ascending(Expired(old(requests), now))
      ensures requests == old(requests) - Expired(old(requests), now)
    {
      var unseen := requests.Keys;
      expired := [];
      ghost var all := Expired(requests, now);
      ghost var left := all;
      ScanStart(requests, all);
      while unseen != {}
        invariant unseen <= old(requests).Keys && left == all * unseen
        invariant requests == old(requests) - (all - left)
        invariant expired + Ascending(left) == Ascending(all)
        decreases |unseen|
      {
        LeastExists(unseen);
        var id :| id in unseen && forall k :: k in unseen ==> id <= k;
        ScanStep(old(requests), now, left, unseen, id);
        if requests[id] <= now {
          expired := expired + [id];
          requests := requests - {id};
          left := left - {id};
        }
        unseen := unseen - {id};
      }
      ScanEnd(old(requests), all, left);
    }

    method RunTimeouts(expired: seq<nat>)
      requires Valid() && Increasing(expired) && Elements(expired) <= owing
      modifies this`outgoing, this`owing
      ensures Valid() && Value() == CallOffAll(old(Value()), expired)
    {
      var i := 0;
      assert expired[0..] == expired;
      while i < |expired|
        invariant 0 <= i <= |expired| && Valid()
        invariant forall k :: i <= k < |expired| ==> expired[k] in owing
        invariant CallOffAll(Value(), expired[i..]) == CallOffAll(old(Value()), expired)
      {
        assert expired[i..][1..] == expired[i + 1..];
        ApplyKeeps(Value(), CallOffOp(expired[i]));
        SendCancel(expired[i]);
        i := i + 1;
      }
    }

    /** The callbacks run after the table is unlocked. */
    method ExpireRequests(now: nat)
      requires Valid()
      modifies this
      ensures Valid()
      ensures
        var ids := Expired(old(requests), now);
        && Value() == CallOffAll(Expire(old(Value()), now), Ascending(ids))
        && outgoing == old(outgoing) + CancelAll(Ascending(ids)) && owing == old(owing)
    {
      ghost var c, ids := Value(), Expired(requests, now);
      ApplyKeeps(c, ExpireOp(now));
      AscendingSorts(ids);
      CallOffEach(Expire(c, now), Ascending(ids));
      var expired := TakeExpired(now);
      fates := MetAll(fates, ids, TimedOut(now));
      owing := owing + ids;
      RunTimeouts(expired);
      ExpiredOweNothing(c, now);
    }

    method ClearRequests()
      requires Valid()
      modifies this
      ensures Valid() && Value() == Clear(old(Value()))
    {
      ApplyKeeps(Value(), ClearOp);
      fates := MetAll(fates, requests.Keys, Cleared);
      requests := map[];
    }
  }

  lemma ExpiredOweNothing(c: Channel, now: nat)
    requires Inv(c)
    ensures c.owing + Expired(c.pending, now) - Expired(c.pending, now) == c.owing
  {
    forall id | id in Expired(c.pending, now) ensures id !in c.owing {
      assert IdOk(c, id);
    }
  }
}
