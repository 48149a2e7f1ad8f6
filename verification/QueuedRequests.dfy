/** Room's registry of queued requests: admission, cancellation before start, and
    the bounded, expiring record of finished or already-cancelled keys that
    suppresses duplicates. */
module QueuedRequests {

  datatype Key = Key(route: string, id: nat)

  datatype TicketState = Queued | Started | Cancelled {
    /** The two compare-and-exchange operations on a ticket. */
    function TryStart(): TicketState { if Queued? then Started else this }
    function Cancel(): TicketState { if Queued? then Cancelled else this }
  }

  datatype Config = Config(capacity: nat, retention: nat)

  /** `T` identifies a ticket: an object in the class below, a number in the
      Room server's state machine. */
  datatype Registry<T> = Registry(active: map<Key, T>, terminal: map<Key, nat>)

  function Empty<T>(): Registry<T> { Registry(map[], map[]) }

  // ---------------------------------------------------------------- key order

  /** Lexicographic order, as a sorted map keeps its keys. */
  predicate StringLess(a: string, b: string)
  {
    b != [] && (a == [] || a[0] < b[0] || (a[0] == b[0] && StringLess(a[1..], b[1..])))
  }

  predicate KeyLess(a: Key, b: Key)
  {
    StringLess(a.route, b.route) || (a.route == b.route && a.id < b.id)
  }

  lemma {:induction false} StringOrder(a: string, b: string)
    ensures StringLess(a, b) || a == b || StringLess(b, a)
    ensures !(StringLess(a, b) && StringLess(b, a))
  {
    if a != [] && b != [] {
      StringOrder(a[1..], b[1..]);
      if a[0] == b[0] && a[1..] == b[1..] {
        assert a == [a[0]] + a[1..] && b == [b[0]] + b[1..];
      }
    }
  }

  lemma {:induction false} StringTransitive(a: string, b: string, c: string)
    requires StringLess(a, b) && StringLess(b, c)
    ensures StringLess(a, c)
  {
    if a != [] && a[0] == b[0] == c[0] {
      StringTransitive(a[1..], b[1..], c[1..]);
    }
  }

  /** The order `min_element` minimises: expiry first, then the map's key order. */
  predicate Before(m: map<Key, nat>, a: Key, b: Key)
    requires a in m && b in m
  {
    m[a] < m[b] || (m[a] == m[b] && KeyLess(a, b))
  }

  lemma BeforeOrder(m: map<Key, nat>, a: Key, b: Key, c: Key)
    requires a in m && b in m && c in m
    ensures Before(m, a, b) || a == b || Before(m, b, a)
    ensures !(Before(m, a, b) && Before(m, b, a))
    ensures Before(m, a, b) && Before(m, b, c) ==> Before(m, a, c)
  {
    StringOrder(a.route, b.route);
    StringOrder(b.route, a.route);
    if StringLess(a.route, b.route) && StringLess(b.route, c.route) {
      StringTransitive(a.route, b.route, c.route);
    }
  }

  ghost predicate IsOldest(m: map<Key, nat>, k: Key)
  {
    k in m && forall j :: j in m && j != k ==> Before(m, k, j)
  }

  lemma OldestUnique(m: map<Key, nat>, a: Key, b: Key)
    requires IsOldest(m, a) && IsOldest(m, b)
    ensures a == b
  {
    BeforeOrder(m, a, b, a);
  }

  lemma {:induction false} OldestExists(m: map<Key, nat>)
    requires m != map[]
    ensures exists k :: IsOldest(m, k)
    decreases |m|
  {
    var k :| k in m;
    var rest := m - {k};
    if rest == map[] {
      assert m.Keys == {k} + rest.Keys;
      assert IsOldest(m, k);
    } else {
      OldestExists(rest);
      var j :| IsOldest(rest, j);
      BeforeOrder(m, j, k, j);
      if Before(m, j, k) {
        assert IsOldest(m, j);
      } else {
        forall i | i in m && i != k ensures Before(m, k, i) {
          if i != j {
            assert Before(rest, j, i);
            BeforeOrder(m, k, j, i);
          }
        }
        assert IsOldest(m, k);
      }
    }
  }

  ghost function Oldest(m: map<Key, nat>): (k: Key)
    requires m != map[]
    ensures IsOldest(m, k)
  {
    OldestExists(m);
    var k :| IsOldest(m, k);
    k
  }

  // ---------------------------------------------------------------- operations

  function Pruned(terminal: map<Key, nat>, now: nat): map<Key, nat>
  {
    map k | k in terminal && now < terminal[k] :: terminal[k]
  }

  ghost function Remembered(cfg: Config, terminal: map<Key, nat>, id: Key, now: nat): map<Key, nat>
  {
    if cfg.capacity == 0 then terminal
    else
      var kept := if |terminal| >= cfg.capacity then terminal - {Oldest(terminal)} else terminal;
      kept[id := now + cfg.retention]
  }

  predicate Admissible<T>(cfg: Config, r: Registry<T>, id: Key, now: nat)
  {
    id !in r.active && id !in Pruned(r.terminal, now) && |r.active| < cfg.capacity
  }

  function AfterAdmit<T>(cfg: Config, r: Registry<T>, id: Key, now: nat, ticket: T): Registry<T>
  {
    var pruned := r.(terminal := Pruned(r.terminal, now));
    if Admissible(cfg, r, id, now) then pruned.(active := r.active[id := ticket]) else pruned
  }

  ghost function AfterCancel<T>(cfg: Config, r: Registry<T>, id: Key, now: nat): Registry<T>
  {
    var pruned := Pruned(r.terminal, now);
    if id in r.active || id in pruned then r.(terminal := pruned)
    else r.(terminal := Remembered(cfg, pruned, id, now))
  }

  predicate Holds<T(==)>(r: Registry<T>, id: Key, ticket: T)
  {
    id in r.active && r.active[id] == ticket
  }

  ghost function AfterFinish<T>(cfg: Config, r: Registry<T>, id: Key, ticket: T, now: nat): Registry<T>
  {
    if !Holds(r, id, ticket) then r
    else Registry(r.active - {id}, Remembered(cfg, Pruned(r.terminal, now), id, now))
  }

  // ---------------------------------------------------------------- invariant

  /** What every operation keeps: a key is never both active and terminal, and
      neither side outgrows the capacity. */
  ghost predicate Valid<T>(cfg: Config, r: Registry<T>)
  {
    && r.active.Keys !! r.terminal.Keys
    && |r.active| <= cfg.capacity
    && |r.terminal| <= cfg.capacity
  }

  lemma PrunedSize(terminal: map<Key, nat>, now: nat)
    ensures |Pruned(terminal, now)| <= |terminal|
    ensures Pruned(terminal, now).Keys <= terminal.Keys
  {
    SubsetSize(Pruned(terminal, now).Keys, terminal.Keys);
  }

  lemma {:induction false} SubsetSize<A>(a: set<A>, b: set<A>)
    requires a <= b
    ensures |a| <= |b|
    decreases a
  {
    if a != {} {
      var x :| x in a;
      SubsetSize(a - {x}, b - {x});
    }
  }

  lemma StrictSubsetSize<A>(a: set<A>, b: set<A>)
    requires a < b
    ensures |a| < |b|
  {
    var x :| x in b && x !in a;
    SubsetSize(a, b - {x});
  }

  lemma RememberedSize(cfg: Config, terminal: map<Key, nat>, id: Key, now: nat)
    requires |terminal| <= cfg.capacity
    ensures |Remembered(cfg, terminal, id, now)| <= cfg.capacity
    ensures Remembered(cfg, terminal, id, now).Keys <= terminal.Keys + {id}
    ensures cfg.capacity > 0 ==> id in Remembered(cfg, terminal, id, now)
  {
    if cfg.capacity > 0 {
      var t' := Remembered(cfg, terminal, id, now);
      if |terminal| >= cfg.capacity {
        var victim := Oldest(terminal);
        assert t'.Keys == terminal.Keys - {victim} + {id};
      } else {
        assert t'.Keys == terminal.Keys + {id};
      }
    }
  }

  lemma AdmitKeepsValid<T>(cfg: Config, r: Registry<T>, id: Key, now: nat, ticket: T)
    requires Valid(cfg, r)
    ensures Valid(cfg, AfterAdmit(cfg, r, id, now, ticket))
  {
    PrunedSize(r.terminal, now);
    assert r.active[id := ticket].Keys == r.active.Keys + {id};
  }

  lemma CancelKeepsValid<T>(cfg: Config, r: Registry<T>, id: Key, now: nat)
    requires Valid(cfg, r)
    ensures Valid(cfg, AfterCancel(cfg, r, id, now))
  {
    PrunedSize(r.terminal, now);
    RememberedSize(cfg, Pruned(r.terminal, now), id, now);
  }

  lemma FinishKeepsValid<T>(cfg: Config, r: Registry<T>, id: Key, ticket: T, now: nat)
    requires Valid(cfg, r)
    ensures Valid(cfg, AfterFinish(cfg, r, id, ticket, now))
  {
    PrunedSize(r.terminal, now);
    RememberedSize(cfg, Pruned(r.terminal, now), id, now);
    assert (r.active - {id}).Keys == r.active.Keys - {id};
    SubsetSize(r.active.Keys - {id}, r.active.Keys);
  }

  // ---------------------------------------------------------------- runs

  datatype Op<T> =
    | AdmitOp(id: Key, now: nat, ticket: T)
    | CancelOp(id: Key, now: nat)
    | FinishOp(id: Key, now: nat, ticket: T)

  ghost function Apply<T>(cfg: Config, r: Registry<T>, op: Op<T>): Registry<T>
  {
    match op
    case AdmitOp(id, now, ticket) => AfterAdmit(cfg, r, id, now, ticket)
    case CancelOp(id, now) => AfterCancel(cfg, r, id, now)
    case FinishOp(id, now, ticket) => AfterFinish(cfg, r, id, ticket, now)
  }

  ghost function RunOps<T>(cfg: Config, r: Registry<T>, ops: seq<Op<T>>): Registry<T>
    decreases |ops|
  {
    if ops == [] then r else RunOps(cfg, Apply(cfg, r, ops[0]), ops[1..])
  }

  /** Does this call make its key terminal? */
  ghost predicate BecomesTerminal<T>(r: Registry<T>, op: Op<T>)
  {
    match op
    case AdmitOp(_, _, _) => false
    case CancelOp(id, now) => id !in r.active && id !in Pruned(r.terminal, now)
    case FinishOp(id, now, ticket) => Holds(r, id, ticket)
  }

  ghost function TerminalCount<T>(cfg: Config, r: Registry<T>, ops: seq<Op<T>>): nat
    decreases |ops|
  {
    if ops == [] then 0
    else (if BecomesTerminal(r, ops[0]) then 1 else 0) + TerminalCount(cfg, Apply(cfg, r, ops[0]), ops[1..])
  }

  ghost predicate StrictlyLater<T>(last: nat, ops: seq<Op<T>>)
    decreases |ops|
  {
    ops == [] || (last < ops[0].now && StrictlyLater(ops[0].now, ops[1..]))
  }

  ghost predicate AllBefore<T>(ops: seq<Op<T>>, t: nat)
  {
    forall i :: 0 <= i < |ops| ==> ops[i].now < t
  }

  lemma ApplyKeepsValid<T>(cfg: Config, r: Registry<T>, op: Op<T>)
    requires Valid(cfg, r)
    ensures Valid(cfg, Apply(cfg, r, op))
  {
    match op {
      case AdmitOp(id, now, ticket) => AdmitKeepsValid(cfg, r, id, now, ticket);
      case CancelOp(id, now) => CancelKeepsValid(cfg, r, id, now);
      case FinishOp(id, now, ticket) => FinishKeepsValid(cfg, r, id, ticket, now);
    }
  }

  lemma {:induction false} RunKeepsValid<T>(cfg: Config, r: Registry<T>, ops: seq<Op<T>>)
    requires Valid(cfg, r)
    ensures Valid(cfg, RunOps(cfg, r, ops))
    decreases |ops|
  {
    if ops != [] {
      ApplyKeepsValid(cfg, r, ops[0]);
      RunKeepsValid(cfg, Apply(cfg, r, ops[0]), ops[1..]);
    }
  }

  // ---------------------------------------------------------------- how long a record lasts

  /** The records after `id` in the order in which they are evicted. */
  ghost function Behind(terminal: map<Key, nat>, id: Key): set<Key>
    requires id in terminal
  {
    set k | k in terminal && k != id && Before(terminal, id, k)
  }

  /** This call writes a record and finds all but one of the places taken by records
      that are evicted after `id`. */
  ghost predicate Crowds<T>(cfg: Config, r: Registry<T>, op: Op<T>, id: Key)
  {
    && BecomesTerminal(r, op) && id in Pruned(r.terminal, op.now)
    && |Behind(Pruned(r.terminal, op.now), id)| + 1 >= cfg.capacity
  }

  /** Some call of the run does so. */
  ghost predicate Crowded<T>(cfg: Config, r: Registry<T>, ops: seq<Op<T>>, id: Key)
    decreases |ops|
  {
    ops != [] && (Crowds(cfg, r, ops[0], id) || Crowded(cfg, Apply(cfg, r, ops[0]), ops[1..], id))
  }

  /** The record of `id`, with expiry `e`, is there all along. */
  ghost predicate Lasts<T>(cfg: Config, r: Registry<T>, ops: seq<Op<T>>, id: Key, e: nat)
    decreases |ops|
  {
    && id in r.terminal && r.terminal[id] == e
    && (ops == [] || Lasts(cfg, Apply(cfg, r, ops[0]), ops[1..], id, e))
  }

  /** A full record loses `id` exactly if all the others come after it. */
  lemma OldestIs(t: map<Key, nat>, id: Key)
    requires id in t
    ensures Oldest(t) == id <==> |Behind(t, id)| + 1 == |t|
  {
    var behind := Behind(t, id);
    assert |behind + {id}| == |behind| + 1;
    if Oldest(t) == id {
      assert behind + {id} == t.Keys;
    } else if |behind| + 1 == |t| {
      BeforeOrder(t, Oldest(t), id, id);
      assert Oldest(t) !in behind + {id};
      StrictSubsetSize(behind + {id}, t.Keys);
    }
  }

  lemma BehindSize(t: map<Key, nat>, id: Key)
    requires id in t
    ensures |Behind(t, id)| + 1 <= |t|
  {
    assert |Behind(t, id) + {id}| == |Behind(t, id)| + 1;
    SubsetSize(Behind(t, id) + {id}, t.Keys);
  }

  lemma RememberKeeps(cfg: Config, t: map<Key, nat>, added: Key, now: nat, id: Key)
    requires |t| <= cfg.capacity && id in t && added != id
    ensures id in Remembered(cfg, t, added, now) <==> |Behind(t, id)| + 1 < cfg.capacity
    ensures id in Remembered(cfg, t, added, now) ==> Remembered(cfg, t, added, now)[id] == t[id]
  {
    BehindSize(t, id);
    if |t| >= cfg.capacity {
      OldestIs(t, id);
    }
  }

  /** One call before the expiry of `id`'s record keeps the record, as it is, if and
      only if it does not crowd it out. */
  lemma ApplyLasts<T>(cfg: Config, r: Registry<T>, op: Op<T>, id: Key, e: nat)
    requires Valid(cfg, r) && id in r.terminal && r.terminal[id] == e && op.now < e
    ensures var r' := Apply(cfg, r, op);
      && (id in r'.terminal <==> !Crowds(cfg, r, op, id))
      && (id in r'.terminal ==> r'.terminal[id] == e)
  {
    var pruned := Pruned(r.terminal, op.now);
    PrunedSize(r.terminal, op.now);
    if BecomesTerminal(r, op) {
      assert op.id != id;
      RememberKeeps(cfg, pruned, op.id, op.now, id);
    }
  }

  /** Every call looks for expired records, but a completion by a ticket that is not
      held. */
  predicate Looks<T(==)>(r: Registry<T>, op: Op<T>)
  {
    op.FinishOp? ==> Holds(r, op.id, op.ticket)
  }

  /** Some call of the run finds a record with expiry `e` expired. */
  ghost predicate Outlived<T>(cfg: Config, r: Registry<T>, ops: seq<Op<T>>, e: nat)
    decreases |ops|
  {
    ops != [] && ((Looks(r, ops[0]) && ops[0].now >= e) || Outlived(cfg, Apply(cfg, r, ops[0]), ops[1..], e))
  }

  ghost predicate AllLook<T>(cfg: Config, r: Registry<T>, ops: seq<Op<T>>)
    decreases |ops|
  {
    ops != [] ==> Looks(r, ops[0]) && AllLook(cfg, Apply(cfg, r, ops[0]), ops[1..])
  }

  lemma AllBeforeSplit<T>(ops: seq<Op<T>>, e: nat)
    requires ops != []
    ensures AllBefore(ops, e) <==> ops[0].now < e && AllBefore(ops[1..], e)
  {
    if ops[0].now < e && AllBefore(ops[1..], e) {
      forall i | 0 <= i < |ops| ensures ops[i].now < e {
        assert i > 0 ==> ops[1..][i - 1] == ops[i];
      }
    }
  }

  /** If every call looks, that is when one comes at or after `e`. */
  lemma {:induction false} OutlivedIs<T>(cfg: Config, r: Registry<T>, ops: seq<Op<T>>, e: nat)
    ensures AllBefore(ops, e) ==> !Outlived(cfg, r, ops, e)
    ensures AllLook(cfg, r, ops) ==> (Outlived(cfg, r, ops, e) <==> !AllBefore(ops, e))
    decreases |ops|
  {
    if ops != [] {
      AllBeforeSplit(ops, e);
      OutlivedIs(cfg, Apply(cfg, r, ops[0]), ops[1..], e);
    }
  }

  /** Such a call takes the record away; the key may be written anew, but with another
      expiry. */
  lemma ApplyLate<T>(cfg: Config, r: Registry<T>, op: Op<T>, id: Key, e: nat)
    requires Valid(cfg, r) && id in r.terminal && r.terminal[id] == e && op.now >= e && Looks(r, op)
    ensures var r' := Apply(cfg, r, op);
      id in r'.terminal ==> op.id == id && r'.terminal[id] == op.now + cfg.retention
  {
    RememberedOthers(cfg, Pruned(r.terminal, op.now), op.id, op.now, id);
  }

  lemma RememberedOthers(cfg: Config, t: map<Key, nat>, added: Key, now: nat, id: Key)
    requires id !in t
    ensures id in Remembered(cfg, t, added, now) ==> added == id && Remembered(cfg, t, added, now)[id] == now + cfg.retention
  {
  }

  /** One call, at any time. */
  lemma ApplyRecord<T>(cfg: Config, r: Registry<T>, op: Op<T>, id: Key, e: nat)
    requires Valid(cfg, r) && id in r.terminal && r.terminal[id] == e
    ensures
      var r' := Apply(cfg, r, op);
      var late := Looks(r, op) && op.now >= e;
      && Valid(cfg, r')
      && (late ==> !Crowds(cfg, r, op, id) && (id in r'.terminal ==> op.id == id && r'.terminal[id] == op.now + cfg.retention))
      && (!late ==> (id in r'.terminal <==> !Crowds(cfg, r, op, id)) && (id in r'.terminal ==> r'.terminal[id] == e))
  {
    ApplyKeepsValid(cfg, r, op);
    if op.now < e {
      ApplyLasts(cfg, r, op, id, e);
    } else if Looks(r, op) {
      ApplyLate(cfg, r, op, id, e);
    }
  }

  /** How long a record lasts, whatever the clock does: it stays, with the expiry it was
      given, through exactly those runs in which no call crowds it out and none finds
      it expired; and until then, as long as it stays, its key is refused. (If nothing
      is retained at all, a record written at the expiry of the one before looks like
      it.) */
  lemma {:induction false} RecordLasts<T>(cfg: Config, r: Registry<T>, ops: seq<Op<T>>, id: Key, e: nat, now: nat)
    requires Valid(cfg, r) && id in r.terminal && r.terminal[id] == e
    ensures cfg.retention > 0 || !Outlived(cfg, r, ops, e) ==>
      (Lasts(cfg, r, ops, id, e) <==> !Crowded(cfg, r, ops, id) && !Outlived(cfg, r, ops, e))
    ensures Lasts(cfg, r, ops, id, e) ==>
      var r' := RunOps(cfg, r, ops); id in r'.terminal && r'.terminal[id] == e && (now < e ==> !Admissible(cfg, r', id, now))
    decreases |ops|
  {
    if ops != [] {
      var r1 := Apply(cfg, r, ops[0]);
      ApplyRecord(cfg, r, ops[0], id, e);
      assert Lasts(cfg, r, ops, id, e) <==> Lasts(cfg, r1, ops[1..], id, e);
      if id in r1.terminal && r1.terminal[id] == e {
        RecordLasts(cfg, r1, ops[1..], id, e, now);
      }
    }
  }

  // ---------------------------------------------------------------- at increasing times

  /** Every terminal record was written at or before `last`. */
  ghost predicate WrittenBy<T>(cfg: Config, r: Registry<T>, last: nat)
  {
    forall k :: k in r.terminal ==> r.terminal[k] <= last + cfg.retention
  }

  lemma ApplyKeepsWrittenBy<T>(cfg: Config, r: Registry<T>, op: Op<T>, last: nat)
    requires WrittenBy(cfg, r, last) && last <= op.now
    ensures WrittenBy(cfg, Apply(cfg, r, op), op.now)
  {
  }

  ghost function LastTime<T>(last: nat, ops: seq<Op<T>>): nat
    decreases |ops|
  {
    if ops == [] then last else LastTime(ops[0].now, ops[1..])
  }

  lemma {:induction false} RunKeepsWrittenBy<T>(cfg: Config, r: Registry<T>, ops: seq<Op<T>>, last: nat)
    requires WrittenBy(cfg, r, last) && StrictlyLater(last, ops)
    ensures WrittenBy(cfg, RunOps(cfg, r, ops), LastTime(last, ops))
    decreases |ops|
  {
    if ops != [] {
      ApplyKeepsWrittenBy(cfg, r, ops[0], last);
      RunKeepsWrittenBy(cfg, Apply(cfg, r, ops[0]), ops[1..], ops[0].now);
    }
  }

  /** The records younger than expiry `e`. */
  ghost function Younger(terminal: map<Key, nat>, e: nat): set<Key>
  {
    set k | k in terminal && terminal[k] > e
  }

  /** One call, while `id`'s record (expiry `e`) is still there: it stays unless
      the call writes one more record than the capacity leaves room for, and the
      younger records are exactly the ones written since. */
  lemma ApplyAges<T>(cfg: Config, r: Registry<T>, op: Op<T>, id: Key, e: nat)
    requires Valid(cfg, r)
    requires id in r.terminal && r.terminal[id] == e
    requires forall k :: k in r.terminal && k != id ==> r.terminal[k] != e
    requires op.now < e < op.now + cfg.retention
    requires WrittenBy(cfg, r, op.now)
    ensures var r' := Apply(cfg, r, op);
      var n := |Younger(r.terminal, e)| + if BecomesTerminal(r, op) then 1 else 0;
      && (n < cfg.capacity ==>
           && id in r'.terminal && r'.terminal[id] == e
           && |Younger(r'.terminal, e)| == n
           && forall k :: k in r'.terminal && k != id ==> r'.terminal[k] != e)
      && (n >= cfg.capacity ==> id !in r'.terminal)
  {
    var r' := Apply(cfg, r, op);
    var young := Younger(r.terminal, e);
    var pruned := Pruned(r.terminal, op.now);
    assert Younger(pruned, e) == young;
    SubsetSize(young + {id}, r.terminal.Keys);
    assert |young + {id}| == |young| + 1;
    PrunedSize(r.terminal, op.now);
    if BecomesTerminal(r, op) {
      assert r'.terminal == Remembered(cfg, pruned, op.id, op.now);
      assert op.id !in r.terminal || op.id !in pruned;
      assert op.id !in pruned;
      RememberAges(cfg, pruned, op.id, op.now, id, e);
    } else if !(op.FinishOp?) {
      assert r'.terminal == pruned;
    }
  }

  lemma RememberAges(cfg: Config, t: map<Key, nat>, added: Key, now: nat, id: Key, e: nat)
    requires |t| <= cfg.capacity && added !in t
    requires id in t && t[id] == e
    requires forall k :: k in t && k != id ==> t[k] != e
    requires e < now + cfg.retention
    ensures var t' := Remembered(cfg, t, added, now);
      var n := |Younger(t, e)| + 1;
      && (n < cfg.capacity ==>
           && id in t' && t'[id] == e && |Younger(t', e)| == n
           && forall k :: k in t' && k != id ==> t'[k] != e)
      && (n >= cfg.capacity ==> id !in t')
  {
    var young := Younger(t, e);
    var t' := Remembered(cfg, t, added, now);
    SubsetSize(young + {id}, t.Keys);
    assert |young + {id}| == |young| + 1;
    if |t| >= cfg.capacity {
      var victim := Oldest(t);
      if young + {id} == t.Keys {
        // `id` is the only record that is not younger than itself
        assert victim == id || Before(t, victim, id);
      } else {
        assert !(t.Keys <= young + {id});
        var older :| older in t.Keys && older !in young + {id};
        assert t[older] < e;
        assert victim == older || Before(t, victim, older);
        assert Younger(t', e) == young + {added};
        StrictSubsetSize(young + {id}, t.Keys);
      }
    } else {
      assert Younger(t', e) == young + {added};
    }
  }

  /** Once gone, the old record never comes back: whatever is written later has a
      later expiry. */
  lemma {:induction false} GoneStaysGone<T>(cfg: Config, r: Registry<T>, ops: seq<Op<T>>, last: nat, id: Key, e: nat)
    requires StrictlyLater(last, ops) && e <= last + cfg.retention
    requires id in r.terminal ==> r.terminal[id] != e
    ensures var r' := RunOps(cfg, r, ops); id in r'.terminal ==> r'.terminal[id] != e
    decreases |ops|
  {
    if ops != [] {
      GoneStaysGone(cfg, Apply(cfg, r, ops[0]), ops[1..], ops[0].now, id, e);
    }
  }

  lemma {:induction false} RunAges<T>(cfg: Config, r: Registry<T>, ops: seq<Op<T>>, last: nat, id: Key, e: nat)
    requires Valid(cfg, r) && WrittenBy(cfg, r, last)
    requires id in r.terminal && r.terminal[id] == e
    requires forall k :: k in r.terminal && k != id ==> r.terminal[k] != e
    requires StrictlyLater(last, ops) && AllBefore(ops, e) && e <= last + cfg.retention
    requires |Younger(r.terminal, e)| < cfg.capacity
    ensures var r' := RunOps(cfg, r, ops);
      (id in r'.terminal && r'.terminal[id] == e)
      <==> |Younger(r.terminal, e)| + TerminalCount(cfg, r, ops) < cfg.capacity
    ensures Lasts(cfg, r, ops, id, e) <==> |Younger(r.terminal, e)| + TerminalCount(cfg, r, ops) < cfg.capacity
    decreases |ops|
  {
    if ops != [] {
      var op, rest := ops[0], ops[1..];
      var r1 := Apply(cfg, r, op);
      assert ops[0].now < e;
      ApplyAges(cfg, r, op, id, e);
      ApplyKeepsValid(cfg, r, op);
      ApplyKeepsWrittenBy(cfg, r, op, last);
      assert AllBefore(rest, e) by {
        forall i | 0 <= i < |rest| ensures rest[i].now < e {
          assert rest[i] == ops[i + 1];
        }
      }
      if id in r1.terminal {
        RunAges(cfg, r1, rest, op.now, id, e);
      } else {
        GoneStaysGone(cfg, r1, rest, op.now, id, e);
      }
    }
  }

  /** Duplicate suppression, exactly. Over calls at strictly increasing times from
      an empty registry, let `op` make `op.id` terminal. Until its retention has
      passed, the record stays, with the expiry it was given, if and only if fewer
      than `capacity` keys became terminal since, which is when no call crowded it
      out; and while it stays, `op.id` is refused. */
  lemma DuplicateSuppression<T>(cfg: Config, before: seq<Op<T>>, op: Op<T>, after: seq<Op<T>>, now: nat, ticket: T)
    requires StrictlyLater(LastTime(0, before), [op] + after) && StrictlyLater(0, before)
    requires cfg.capacity > 0
    requires var r := RunOps(cfg, Empty<T>(), before); BecomesTerminal(r, op)
    requires AllBefore(after, op.now + cfg.retention)
    requires LastTime(op.now, after) <= now < op.now + cfg.retention
    ensures
      var r := RunOps(cfg, Empty<T>(), before);
      var r1 := Apply(cfg, r, op);
      var r2 := RunOps(cfg, r1, after);
      && ((op.id in r2.terminal && r2.terminal[op.id] == op.now + cfg.retention)
            <==> TerminalCount(cfg, r1, after) < cfg.capacity)
      && (Crowded(cfg, r1, after, op.id) <==> TerminalCount(cfg, r1, after) >= cfg.capacity)
      && (TerminalCount(cfg, r1, after) < cfg.capacity ==> !Admissible(cfg, r2, op.id, now))
  {
    var r0 := Empty<T>();
    var r := RunOps(cfg, r0, before);
    var r1 := Apply(cfg, r, op);
    var e := op.now + cfg.retention;
    var last := LastTime(0, before);
    RunKeepsValid(cfg, r0, before);
    RunKeepsWrittenBy(cfg, r0, before, 0);
    ApplyKeepsValid(cfg, r, op);
    ApplyKeepsWrittenBy(cfg, r, op, last);
    PrunedSize(r.terminal, op.now);
    RememberedSize(cfg, Pruned(r.terminal, op.now), op.id, op.now);
    assert r1.terminal == Remembered(cfg, Pruned(r.terminal, op.now), op.id, op.now);
    assert Younger(r1.terminal, e) == {};
    assert ([op] + after)[1..] == after;
    RunAges(cfg, r1, after, op.now, op.id, e);
    RecordLasts(cfg, r1, after, op.id, e, now);
    OutlivedIs(cfg, r1, after, e);
  }

  /** The strictness is needed. When several records are written in one clock tick
      the map's key order breaks the tie, and a key can be forgotten although only
      one further key became terminal in a registry of capacity two. */
  lemma TiesForgetEarly()
    ensures
      var cfg := Config(2, 30);
      var a, b, c := Key("a", 0), Key("b", 0), Key("c", 0);
      var r := RunOps(cfg, Empty<nat>(), [CancelOp(b, 5), CancelOp(a, 5)]);
      && BecomesTerminal(Apply(cfg, Empty<nat>(), CancelOp(b, 5)), CancelOp(a, 5))
      && a in r.terminal
      && TerminalCount(cfg, r, [CancelOp(c, 5)]) == 1
      && a !in RunOps(cfg, r, [CancelOp(c, 5)]).terminal
  {
    var cfg := Config(2, 30);
    var a, b, c := Key("a", 0), Key("b", 0), Key("c", 0);
    var r2: Registry<nat> := Registry(map[], map[b := 35, a := 35]);
    TwoTied(cfg, a, b, r2);
    ThirdEvicts(cfg, a, b, c, r2);
  }

  lemma RunTwo<T>(cfg: Config, r: Registry<T>, first: Op<T>, second: Op<T>)
    ensures RunOps(cfg, r, [first, second]) == Apply(cfg, Apply(cfg, r, first), second)
  {
    var r1, last := Apply(cfg, r, first), [second];
    assert [first, second][1..] == last && last[1..] == [];
    assert RunOps(cfg, r1, last) == RunOps(cfg, Apply(cfg, r1, second), last[1..]);
  }

  lemma CancelsInto(cfg: Config, r: Registry<nat>, k: Key, r': Registry<nat>)
    requires cfg == Config(2, 30) && k !in r.terminal && r.active == map[] && |r.terminal| < 2
    requires forall j :: j in r.terminal ==> r.terminal[j] == 35
    requires r' == Registry(map[], r.terminal[k := 35])
    ensures Apply(cfg, r, CancelOp(k, 5)) == r' && BecomesTerminal(r, CancelOp(k, 5))
  {
    assert Pruned(r.terminal, 5) == r.terminal;
  }

  lemma TwoTied(cfg: Config, a: Key, b: Key, r2: Registry<nat>)
    requires cfg == Config(2, 30) && a != b && r2 == Registry(map[], map[b := 35, a := 35])
    ensures RunOps(cfg, Empty<nat>(), [CancelOp(b, 5), CancelOp(a, 5)]) == r2
    ensures BecomesTerminal(Apply(cfg, Empty<nat>(), CancelOp(b, 5)), CancelOp(a, 5))
  {
    var r1: Registry<nat> := Registry(map[], map[b := 35]);
    CancelsInto(cfg, Empty<nat>(), b, r1);
    assert r1.terminal[a := 35] == r2.terminal;
    CancelsInto(cfg, r1, a, r2);
    RunTwo(cfg, Empty<nat>(), CancelOp(b, 5), CancelOp(a, 5));
  }

  lemma ThirdEvicts(cfg: Config, a: Key, b: Key, c: Key, r2: Registry<nat>)
    requires cfg == Config(2, 30) && a == Key("a", 0) && b == Key("b", 0) && c == Key("c", 0)
    requires r2 == Registry(map[], map[b := 35, a := 35])
    ensures TerminalCount(cfg, r2, [CancelOp(c, 5)]) == 1
    ensures a !in RunOps(cfg, r2, [CancelOp(c, 5)]).terminal
  {
    assert |r2.terminal.Keys| == 2 by { assert r2.terminal.Keys == {a, b}; }
    assert Before(r2.terminal, a, b);
    assert IsOldest(r2.terminal, a);
    OldestUnique(r2.terminal, Oldest(r2.terminal), a);
    assert Pruned(r2.terminal, 5) == r2.terminal;
  }

  ghost predicate Unheld<T>(r: Registry<T>, ticket: T)
  {
    forall k :: k in r.active ==> r.active[k] != ticket
  }

  /** A stale completion does nothing: once a ticket has left the registry, no later
      run of calls that issue other tickets gives it power over any key, not even
      one admitted again. */
  lemma {:induction false} StaleCompletionIsHarmless<T>(cfg: Config, r: Registry<T>, ops: seq<Op<T>>,
                                                        ticket: T, id: Key, now: nat)
    requires Unheld(r, ticket)
    requires forall i :: 0 <= i < |ops| && ops[i].AdmitOp? ==> ops[i].ticket != ticket
    ensures var r' := RunOps(cfg, r, ops); AfterFinish(cfg, r', id, ticket, now) == r'
    decreases |ops|
  {
    if ops != [] {
      var r1 := Apply(cfg, r, ops[0]);
      assert Unheld(r1, ticket);
      forall i | 0 <= i < |ops[1..]| && ops[1..][i].AdmitOp? ensures ops[1..][i].ticket != ticket {
        assert ops[1..][i] == ops[i + 1];
      }
      StaleCompletionIsHarmless(cfg, r1, ops[1..], ticket, id, now);
    }
  }

  // ---------------------------------------------------------------- objects

  class Ticket {
    var state: TicketState

    constructor ()
      ensures state == Queued
    {
      state := Queued;
    }

    method TryStart() returns (won: bool)
      modifies this
      ensures state == old(state).TryStart()
      ensures won <==> old(state).Queued?
    {
      won := state == Queued;
      if won {
        state := TicketState.Started;
      }
    }

    predicate Started()
      reads this
    {
      state.Started?
    }

    method Cancel()
      modifies this
      ensures state == old(state).Cancel()
    {
      if state == Queued {
        state := Cancelled;
      }
    }
  }

  class RequestRegistry {
    const cfg: Config
    var active: map<Key, Ticket>
    var terminal: map<Key, nat>

    ghost function State(): Registry<Ticket>
      reads this
    {
      Registry(active, terminal)
    }

    constructor (capacity: nat, retention: nat)
      ensures cfg == Config(capacity, retention)
      ensures State() == Empty() && Valid(cfg, State())
    {
      cfg := Config(capacity, retention);
      active := map[];
      terminal := map[];
    }

    /** Admits a request unless its key is active or remembered or the registry is
        full; the ticket is new, so no completion of an older one can match it. */
    method Admit(id: Key, now: nat) returns (ticket: Ticket?)
      requires Valid(cfg, State())
      modifies this
      ensures Valid(cfg, State())
      ensures ticket != null <==> old(Admissible(cfg, State(), id, now))
      ensures ticket != null ==> fresh(ticket) && ticket.state == Queued
      ensures ticket != null ==> State() == AfterAdmit(cfg, old(State()), id, now, ticket)
      ensures ticket == null ==> State() == old(State()).(terminal := Pruned(old(terminal), now))
    {
      Prune(now);
      PrunedSize(old(terminal), now);
      if id in active || id in terminal || |active| >= cfg.capacity {
        return null;
      }
      ticket := new Ticket();
      AdmitKeepsValid(cfg, old(State()), id, now, ticket);
      active := active[id := ticket];
    }

    /** Cancels the queued request, or remembers a cancellation that came first. */
    method Cancel(id: Key, now: nat)
      requires Valid(cfg, State())
      modifies this, if id in active then {active[id]} else {}
      ensures Valid(cfg, State())
      ensures State() == AfterCancel(cfg, old(State()), id, now)
      ensures id in old(active) ==> active[id].state == old(active[id].state).Cancel()
    {
      CancelKeepsValid(cfg, State(), id, now);
      Prune(now);
      if id in active {
        active[id].Cancel();
      } else if id !in terminal {
        Remember(id, now);
      }
    }

    /** Retires a request: only the ticket the key currently holds has any effect. */
    method Finish(id: Key, request: Ticket, now: nat) returns (ok: bool)
      requires Valid(cfg, State())
      modifies this
      ensures Valid(cfg, State())
      ensures ok == old(Holds(State(), id, request))
      ensures State() == AfterFinish(cfg, old(State()), id, request, now)
    {
      FinishKeepsValid(cfg, State(), id, request, now);
      if id !in active || active[id] != request {
        return false;
      }
      active := active - {id};
      Prune(now);
      Remember(id, now);
      ok := true;
    }

    /** Erases expired records one by one. */
    method Prune(now: nat)
      modifies this`terminal
      ensures terminal == Pruned(old(terminal), now)
    {
      var unseen := terminal.Keys;
      while unseen != {}
        invariant unseen <= terminal.Keys <= old(terminal).Keys
        invariant forall k :: k in terminal ==> terminal[k] == old(terminal)[k]
        invariant forall k :: k in old(terminal) && k !in unseen ==>
          (k in terminal <==> now < old(terminal)[k])
        decreases |unseen|
      {
        var k :| k in unseen;
        unseen := unseen - {k};
        if now >= terminal[k] {
          terminal := terminal - {k};
        }
      }
    }

    /** Writes a record, evicting the one that expires first when full. */
    method Remember(id: Key, now: nat)
      modifies this`terminal
      ensures terminal == Remembered(cfg, old(terminal), id, now)
    {
      if cfg.capacity == 0 {
        return;
      }
      if |terminal| >= cfg.capacity {
        var oldest := FindOldest();
        OldestUnique(terminal, oldest, Oldest(terminal));
        terminal := terminal - {oldest};
      }
      terminal := terminal[id := now + cfg.retention];
    }

    method FindOldest() returns (oldest: Key)
      requires terminal != map[]
      ensures IsOldest(terminal, oldest)
    {
      oldest :| oldest in terminal.Keys;
      var unseen := terminal.Keys - {oldest};
      while unseen != {}
        invariant unseen <= terminal.Keys && oldest in terminal && oldest !in unseen
        invariant forall k :: k in terminal && k !in unseen && k != oldest ==> Before(terminal, oldest, k)
        decreases |unseen|
      {
        var k :| k in unseen;
        BeforeOrder(terminal, k, oldest, oldest);
        if terminal[k] < terminal[oldest] || (terminal[k] == terminal[oldest] && KeyLess(k, oldest)) {
          forall j | j in terminal && j !in unseen && j != oldest ensures Before(terminal, k, j) {
            BeforeOrder(terminal, k, oldest, j);
          }
          oldest := k;
        }
        unseen := unseen - {k};
      }
    }
  }
}
