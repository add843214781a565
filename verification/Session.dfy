/** Connections, the session's transaction slot and the transaction handle, over all runs. */
module Session {
  import opened Wrappers

  type Conn = nat
  type Slot = nat

  /** `pool` is idle, `discarded` closed, `open` has a transaction begun and not ended; `slots[i]` is the
      connection of the i-th transaction until it is taken out; `handles` are the live handles. */
  datatype State = State(pool: set<Conn>, discarded: set<Conn>, open: set<Conn>, created: nat,
                         slots: seq<Option<Conn>>, active: Option<Slot>, handles: set<Slot>)

  const START := State({}, {}, {}, 0, [], None, {})

  /** What happens, with the outcome of every step that may fail or be cancelled. `cut` is a begin that is
      cancelled once it has its connection: while BEGIN, the isolation setting or its rollback is under way;
      `begun` and `undone` say which of them the server has carried out. */
  datatype Event =
    | Begin(pick: Conn, acquired: bool, begun: bool, isolated: bool, isolationSet: bool, undone: bool, cut: bool)
    | Statement(pick: Conn, acquired: bool)
    | FacadeStatement(slot: Slot)
    | FacadeDiscard(slot: Slot)
    | Commit(handle: Slot, ended: bool, cancelled: bool)
    | Rollback(handle: Slot, ended: bool, cancelled: bool)
    | Drop(handle: Slot)
    | ManagedSave(pick: Conn, acquired: bool, begun: bool, cut: bool, body: bool, ended: bool, cancelled: bool)

  /** The connection a statement ran on, an error, or neither. */
  datatype Outcome = Ran(conn: Conn) | Failed | Done

  // ---------------------------------------------------------------------------
  // Steps
  // ---------------------------------------------------------------------------

  /** The pool hands out the idle connection `pick`, or a new one. */
  function Acquired(s: State, pick: Conn): Conn {
    if pick in s.pool then pick else s.created
  }

  function Take(s: State, pick: Conn): State {
    if pick in s.pool then s.(pool := s.pool - {pick}) else s.(created := s.created + 1)
  }

  function ToPool(s: State, c: Conn): State {
    s.(pool := s.pool + {c})
  }

  /** Closing a connection aborts its transaction. */
  function Close(s: State, c: Conn): State {
    s.(discarded := s.discarded + {c}, open := s.open - {c})
  }

  function SlotConn(s: State, i: Slot): Option<Conn> {
    if i < |s.slots| then s.slots[i] else None
  }

  function EmptySlot(s: State, i: Slot): State {
    if i < |s.slots| then s.(slots := s.slots[i := None]) else s
  }

  /** A transaction ends on a connection taken out of its slot or held by a save: pooled when the
      statement succeeded, closed when it failed or was cancelled. */
  function End(s: State, c: Conn, ended: bool, cancelled: bool): State {
    if ended && !cancelled then ToPool(s.(open := s.open - {c}), c) else Close(s, c)
  }

  /** The isolation level is refused after BEGIN. */
  predicate Refused(e: Event)
    requires e.Begin?
  {
    e.isolated && !e.isolationSet
  }

  function BeginStep(s: State, e: Event): (State, Outcome)
    requires e.Begin?
  {
    if s.active.Some? || !e.acquired then (s, Failed)
    else
      var c, t := Acquired(s, e.pick), Take(s, e.pick);
      if !e.begun then (ToPool(t, c), Failed)
      else
        var u := t.(open := t.open + {c});
        if Refused(e) then
          // The rollback is best effort and the connection goes back to the pool either way.
          (ToPool(if e.undone then u.(open := u.open - {c}) else u, c), Failed)
        else if e.cut then
          // Nothing guards the connection yet: it is dropped as it is.
          (ToPool(u, c), Failed)
        else
          (u.(slots := u.slots + [Some(c)], active := Some(|u.slots|), handles := u.handles + {|u.slots|}), Done)
  }

  /** Commit and rollback consume the handle, take the connection and clear the session. */
  function FinishStep(s: State, h: Slot, ended: bool, cancelled: bool): (State, Outcome) {
    if h !in s.handles then (s, Failed)
    else
      var t := s.(handles := s.handles - {h}, active := None);
      match SlotConn(s, h)
      case None => (t, Failed)
      case Some(c) => (End(EmptySlot(t, h), c, ended, cancelled), if ended && !cancelled then Done else Failed)
  }

  /** A statement of the context: on the active transaction's connection, otherwise on a pooled one. */
  function StatementStep(s: State, e: Event): (State, Outcome)
    requires e.Statement?
  {
    match s.active
    case Some(i) => (s, match SlotConn(s, i) case Some(c) => Ran(c) case None => Failed)
    case None => if e.acquired then (ToPool(Take(s, e.pick), Acquired(s, e.pick)), Ran(Acquired(s, e.pick)))
        else (s, Failed)
  }

  function FacadeStep(s: State, i: Slot): (State, Outcome) {
    (s, match SlotConn(s, i) case Some(c) => Ran(c) case None => Failed)
  }

  function DiscardStep(s: State, i: Slot): (State, Outcome) {
    match SlotConn(s, i)
    case None => (s, Done)
    case Some(c) => (Close(EmptySlot(s, i), c), Done)
  }

  function DropStep(s: State, h: Slot): (State, Outcome) {
    if h !in s.handles then (s, Done)
    else DiscardStep(s.(handles := s.handles - {h}, active := None), h)
  }

  /** A save outside any transaction manages its own connection; inside one it only issues statements. */
  function SaveStep(s: State, e: Event): (State, Outcome)
    requires e.ManagedSave?
  {
    if s.active.Some? then FacadeStep(s, s.active.value)
    else if !e.acquired then (s, Failed)
    else
      var c, t := Acquired(s, e.pick), Take(s, e.pick);
      if !e.begun then (ToPool(t, c), Failed)
      else if e.cut then (ToPool(t.(open := t.open + {c}), c), Failed)
      else (End(t.(open := t.open + {c}), c, e.ended, e.cancelled),
            if e.body && e.ended && !e.cancelled then Done else Failed)
  }

  function Step(s: State, e: Event): (State, Outcome) {
    match e
    case Begin(_, _, _, _, _, _, _) => BeginStep(s, e)
    case Statement(_, _) => StatementStep(s, e)
    case FacadeStatement(i) => FacadeStep(s, i)
    case FacadeDiscard(i) => DiscardStep(s, i)
    case Commit(h, ended, cancelled) => FinishStep(s, h, ended, cancelled)
    case Rollback(h, ended, cancelled) => FinishStep(s, h, ended, cancelled)
    case Drop(h) => DropStep(s, h)
    case ManagedSave(_, _, _, _, _, _, _) => SaveStep(s, e)
  }

  /** The state after the first `n` events. */
  function Run(es: seq<Event>, n: nat): State
    requires n <= |es|
  {
    if n == 0 then START else Step(Run(es, n - 1), es[n - 1]).0
  }

  // ---------------------------------------------------------------------------
  // What every run keeps
  // ---------------------------------------------------------------------------

  /** The connection of the active transaction. */
  function Held(s: State): Option<Conn> {
    if s.active.Some? then SlotConn(s, s.active.value) else None
  }

  /** The only live handle is the active transaction's, and only its slot can hold a connection. */
  ghost predicate OneTransaction(s: State) {
    && s.handles == (if s.active.Some? then {s.active.value} else {})
    && (s.active.Some? ==> s.active.value < |s.slots|)
    && forall i :: 0 <= i < |s.slots| && s.slots[i].Some? ==> s.active == Some(i)
  }

  /** Every connection ever created is in the pool, closed or in the active slot, and in one of them only. */
  ghost predicate OnePlace(s: State) {
    && s.pool !! s.discarded
    && (forall c: Conn :: c in s.pool || c in s.discarded || Held(s) == Some(c) <==> c < s.created)
    && (Held(s).Some? ==> Held(s).value !in s.pool && Held(s).value !in s.discarded)
  }

  /** The active slot's connection has its transaction open; nothing closed has. */
  ghost predicate OpenIsActive(s: State) {
    && (Held(s).Some? ==> Held(s).value in s.open)
    && (forall c :: c in s.open ==> c < s.created && c !in s.discarded)
  }

  ghost predicate Sound(s: State) {
    OneTransaction(s) && OnePlace(s) && OpenIsActive(s)
  }

  lemma BeginSound(s: State, e: Event)
    requires Sound(s) && e.Begin?
    ensures Sound(BeginStep(s, e).0)
  {
  }

  lemma FinishSound(s: State, h: Slot, ended: bool, cancelled: bool)
    requires Sound(s)
    ensures Sound(FinishStep(s, h, ended, cancelled).0)
  {
  }

  lemma DiscardSound(s: State, i: Slot)
    requires Sound(s)
    ensures Sound(DiscardStep(s, i).0)
  {
  }

  lemma DropSound(s: State, h: Slot)
    requires Sound(s)
    ensures Sound(DropStep(s, h).0)
  {
  }

  lemma StatementSound(s: State, e: Event)
    requires Sound(s) && (e.Statement? || e.ManagedSave?)
    ensures Sound(Step(s, e).0)
  {
  }

  lemma StepSound(s: State, e: Event)
    requires Sound(s)
    ensures Sound(Step(s, e).0)
  {
    match e
    case Begin(_, _, _, _, _, _, _) => BeginSound(s, e);
    case Statement(_, _) => StatementSound(s, e);
    case FacadeStatement(i) =>
    case FacadeDiscard(i) => DiscardSound(s, i);
    case Commit(h, ended, cancelled) => FinishSound(s, h, ended, cancelled);
    case Rollback(h, ended, cancelled) => FinishSound(s, h, ended, cancelled);
    case Drop(h) => DropSound(s, h);
    case ManagedSave(_, _, _, _, _, _, _) => StatementSound(s, e);
  }

  /** In every reachable state each connection is in exactly one place and at most one transaction is active. */
  lemma {:induction false} RunSound(es: seq<Event>, n: nat)
    requires n <= |es|
    ensures Sound(Run(es, n))
  {
    if n > 0 {
      RunSound(es, n - 1);
      StepSound(Run(es, n - 1), es[n - 1]);
    }
  }

  /** No idle connection has a transaction open. */
  ghost predicate PoolClean(s: State) {
    s.pool !! s.open
  }

  /** The steps that pool an open transaction: a begin cancelled after BEGIN has reached the server, also the
      one of a managed save, and one whose isolation level is refused while the best-effort rollback has no
      effect. */
  predicate Leaks(s: State, e: Event) {
    || (e.Begin? && s.active.None? && e.acquired && e.begun && (if Refused(e) then !e.undone else e.cut))
    || (e.ManagedSave? && s.active.None? && e.acquired && e.begun && e.cut)
  }

  lemma BeginClean(s: State, e: Event)
    requires Sound(s) && PoolClean(s) && (e.Begin? || e.ManagedSave?)
    ensures PoolClean(Step(s, e).0) <==> !Leaks(s, e)
  {
    if Leaks(s, e) {
      assert Acquired(s, e.pick) in Step(s, e).0.pool * Step(s, e).0.open;
    }
  }

  lemma FinishClean(s: State, h: Slot, ended: bool, cancelled: bool)
    requires Sound(s) && PoolClean(s)
    ensures PoolClean(FinishStep(s, h, ended, cancelled).0)
  {
  }

  lemma StepClean(s: State, e: Event)
    requires Sound(s) && PoolClean(s)
    ensures PoolClean(Step(s, e).0) <==> !Leaks(s, e)
  {
    match e
    case Begin(_, _, _, _, _, _, _) => BeginClean(s, e);
    case Commit(h, ended, cancelled) => FinishClean(s, h, ended, cancelled);
    case Rollback(h, ended, cancelled) => FinishClean(s, h, ended, cancelled);
    case ManagedSave(_, _, _, _, _, _, _) => BeginClean(s, e);
    case _ =>
  }

  ghost predicate CleanThrough(es: seq<Event>, n: nat)
    requires n <= |es|
  {
    forall k :: 0 <= k <= n ==> PoolClean(Run(es, k))
  }

  ghost predicate LeakAt(es: seq<Event>, k: nat)
    requires k < |es|
  {
    Leaks(Run(es, k), es[k])
  }

  ghost predicate NeverLeaks(es: seq<Event>, n: nat)
    requires n <= |es|
  {
    forall k :: 0 <= k < n ==> !LeakAt(es, k)
  }

  /** Over a whole run no open transaction ever enters the pool exactly when no begin leaks one. */
  lemma {:induction false} RunClean(es: seq<Event>, n: nat)
    requires n <= |es|
    ensures CleanThrough(es, n) <==> NeverLeaks(es, n)
  {
    if n > 0 {
      RunClean(es, n - 1);
      RunSound(es, n - 1);
      CleanNext(es, n);
    }
  }

  lemma CleanNext(es: seq<Event>, n: nat)
    requires 0 < n <= |es| && Sound(Run(es, n - 1)) && (CleanThrough(es, n - 1) <==> NeverLeaks(es, n - 1))
    ensures CleanThrough(es, n) <==> NeverLeaks(es, n)
  {
    if CleanThrough(es, n - 1) {
      assert PoolClean(Run(es, n - 1));
      StepClean(Run(es, n - 1), es[n - 1]);
      assert PoolClean(Run(es, n)) <==> !LeakAt(es, n - 1);
    }
  }

  /** A begin is cancelled after the server has carried out BEGIN. */
  ghost predicate CutAt(es: seq<Event>, k: nat)
    requires k < |es|
  {
    var s, e := Run(es, k), es[k];
    (e.Begin? || e.ManagedSave?) && s.active.None? && e.acquired && e.begun && e.cut
  }

  /** With default isolation the pool is clean throughout a run exactly when no begin is cancelled after the
      server has carried it out. */
  lemma DefaultIsolationClean(es: seq<Event>, n: nat)
    requires n <= |es| && forall k :: 0 <= k < |es| && es[k].Begin? ==> !es[k].isolated
    ensures CleanThrough(es, n) <==> forall k :: 0 <= k < n ==> !CutAt(es, k)
  {
    RunClean(es, n);
    forall k | 0 <= k < n ensures LeakAt(es, k) <==> CutAt(es, k) { }
  }

  /** A begin with default isolation, cancelled while BEGIN is under way. */
  lemma CancelledBeginLeaks()
    ensures !PoolClean(Run([Begin(0, true, true, false, false, false, true)], 1))
  {
    var es := [Begin(0, true, true, false, false, false, true)];
    assert Run(es, 0) == START;
    BeginClean(START, es[0]);
  }

  /** While a transaction is active every statement runs on its connection or fails: never on a pooled one. */
  lemma ActiveTakesAll(es: seq<Event>, n: nat, e: Event, c: Conn)
    requires n <= |es| && Run(es, n).active.Some? && (e.Statement? || e.ManagedSave? || e.FacadeStatement?)
    requires Step(Run(es, n), e).1 == Ran(c)
    ensures Held(Run(es, n)) == Some(c) && c !in Run(es, n).pool && c in Run(es, n).open
    ensures Step(Run(es, n), e).0 == Run(es, n)
  {
    RunSound(es, n);
  }

  lemma StepConsumed(s: State, e: Event, i: Slot)
    requires i < |s.slots| && s.slots[i].None?
    ensures i < |Step(s, e).0.slots| && Step(s, e).0.slots[i].None?
  {
  }

  /** Once a slot is empty its handle and facades only fail, for the rest of the run. */
  lemma {:induction false} ConsumedStays(es: seq<Event>, k: nat, n: nat, i: Slot)
    requires k <= n <= |es| && i < |Run(es, k).slots| && Run(es, k).slots[i].None?
    ensures i < |Run(es, n).slots| && Run(es, n).slots[i].None? && FacadeStep(Run(es, n), i).1 == Failed
    decreases n
  {
    if k < n {
      ConsumedStays(es, k, n - 1, i);
      StepConsumed(Run(es, n - 1), es[n - 1], i);
    }
  }

  /** Commit, rollback and drop all empty the slot and end the session's transaction, whether or not
      the database statement succeeds. */
  lemma FinishedIsConsumed(s: State, h: Slot, e: Event)
    requires Sound(s) && h in s.handles
    requires e == Drop(h) || (e.Commit? && e.handle == h) || (e.Rollback? && e.handle == h)
    ensures var u := Step(s, e).0; h < |u.slots| && u.slots[h].None? && u.active.None? && u.handles == {}
  {
  }

  // ---------------------------------------------------------------------------
  // Outcomes
  // ---------------------------------------------------------------------------

  /** The transaction is gone from the session, and its connection `c` has no transaction open any more. */
  ghost predicate Released(s: State, u: State, h: Slot, c: Conn) {
    && h < |s.slots| && u.slots == s.slots[h := None] && u.active == None && u.handles == s.handles - {h}
    && u.open == s.open - {c} && u.created == s.created
  }

  /** A commit or rollback is done exactly when its handle is live, its slot has a connection, and the statement
      completes uncancelled; that connection goes back to the pool then, and is closed otherwise. */
  lemma FinishExact(s: State, e: Event, h: Slot, ended: bool, cancelled: bool)
    requires e == Commit(h, ended, cancelled) || e == Rollback(h, ended, cancelled)
    ensures Step(s, e).1 == Done <==>
      h in s.handles && h < |s.slots| && s.slots[h].Some? && ended && !cancelled
    ensures h !in s.handles ==> Step(s, e) == (s, Failed)
    ensures h in s.handles && h < |s.slots| && s.slots[h].Some? ==>
      var u, c := Step(s, e).0, s.slots[h].value;
      && Released(s, u, h, c)
      && (ended && !cancelled ==> u.pool == s.pool + {c} && u.discarded == s.discarded)
      && (!ended || cancelled ==> u.pool == s.pool && u.discarded == s.discarded + {c})
  {
  }

  /** Dropping a live handle closes its connection: it never goes back to the pool. */
  lemma DropExact(s: State, h: Slot)
    ensures h !in s.handles ==> Step(s, Drop(h)).0 == s
    ensures h in s.handles && h < |s.slots| && s.slots[h].Some? ==>
      var u, c := Step(s, Drop(h)).0, s.slots[h].value;
      Released(s, u, h, c) && u.pool == s.pool && u.discarded == s.discarded + {c}
  {
  }

  /** A begin is done exactly when no transaction is active and every step of it succeeds; then the session's
      transaction is on a connection of its own, taken from the pool or new. A failed one leaves the session
      without a new transaction. */
  lemma BeginExact(s: State, e: Event)
    requires e.Begin? && Sound(s)
    ensures Step(s, e).1 == Done <==>
      s.active.None? && e.acquired && e.begun && (e.isolated ==> e.isolationSet) && !e.cut
    ensures var u, c := Step(s, e).0, if e.pick in s.pool then e.pick else s.created;
      Step(s, e).1 == Done ==>
        && u.slots == s.slots + [Some(c)] && u.active == Some(|s.slots|) && u.handles == s.handles + {|s.slots|}
        && u.open == s.open + {c} && u.pool == s.pool - {c} && u.discarded == s.discarded
    ensures var u := Step(s, e).0;
      Step(s, e).1 != Done ==>
        Step(s, e).1 == Failed && u.slots == s.slots && u.active == s.active && u.handles == s.handles
        && u.discarded == s.discarded
  {
  }

  /** A save that manages its own connection is done exactly when all of it succeeds; it leaves the session as it
      was, and unless cut at its begin a connection without open transaction. */
  lemma ManagedSaveExact(s: State, e: Event)
    requires e.ManagedSave? && s.active.None? && Sound(s)
    ensures Step(s, e).1 == Done <==> e.acquired && e.begun && !e.cut && e.body && e.ended && !e.cancelled
    ensures var u := Step(s, e).0; u.slots == s.slots && u.active == None && u.handles == s.handles
    ensures var u, c := Step(s, e).0, if e.pick in s.pool then e.pick else s.created;
      e.acquired && e.begun && !e.cut ==>
        && u.open == s.open - {c}
        && (e.ended && !e.cancelled ==> u.pool == s.pool + {c} && u.discarded == s.discarded)
        && (!e.ended || e.cancelled ==> u.pool == s.pool - {c} && u.discarded == s.discarded + {c})
  {
  }

  // ---------------------------------------------------------------------------
  // The context
  // ---------------------------------------------------------------------------

  class Context {
    var pool: set<Conn>
    var discarded: set<Conn>
    var open: set<Conn>
    var created: nat
    var slots: seq<Option<Conn>>
    var active: Option<Slot>
    var handles: set<Slot>

    ghost function Now(): State
      reads this
    {
      State(pool, discarded, open, created, slots, active, handles)
    }

    constructor ()
      ensures Now() == START
    {
      pool, discarded, open, created, slots, active, handles := {}, {}, {}, 0, [], None, {};
    }

    method GetConnection(pick: Conn) returns (c: Conn)
      modifies this`pool, this`created
      ensures Now() == Take(old(Now()), pick) && c == Acquired(old(Now()), pick)
    {
      if pick in pool {
        c := pick;
        pool := pool - {pick};
      } else {
        c := created;
        created := created + 1;
      }
    }

    method Discard(c: Conn)
      modifies this`discarded, this`open
      ensures Now() == Close(old(Now()), c)
    {
      discarded := discarded + {c};
      open := open - {c};
    }

    /** Begins a transaction and registers it; a failed isolation setting rolls back and returns the error. */
    method BeginTransaction(e: Event) returns (handle: Option<Slot>)
      requires e.Begin?
      modifies this
      ensures Now() == Step(old(Now()), e).0 && (handle.None? <==> Step(old(Now()), e).1 == Failed)
      ensures handle.Some? ==> active == handle && handle.value >= |old(slots)|
    {
      if active.Some? || !e.acquired { return None; }
      var c := GetConnection(e.pick);
      if !e.begun {
        pool := pool + {c};
        return None;
      }
      open := open + {c};
      if Refused(e) {
        if e.undone { open := open - {c}; }
        pool := pool + {c};
        return None;
      }
      if e.cut {
        pool := pool + {c};
        return None;
      }
      handle := Some(|slots|);
      slots := slots + [Some(c)];
      active := handle;
      handles := handles + {handle.value};
    }

    method TakeSlot(i: Slot) returns (c: Option<Conn>)
      modifies this`slots
      ensures Now() == EmptySlot(old(Now()), i) && c == SlotConn(old(Now()), i)
    {
      if i >= |slots| { return None; }
      c := slots[i];
      slots := slots[i := None];
    }

    /** Commits or rolls back; the guard closes the connection unless the statement completed. */
    method Finish(h: Slot, ended: bool, cancelled: bool) returns (ok: bool)
      modifies this
      ensures Now() == FinishStep(old(Now()), h, ended, cancelled).0
      ensures ok <==> FinishStep(old(Now()), h, ended, cancelled).1 == Done
    {
      if h !in handles { return false; }
      handles := handles - {h};
      var c := TakeSlot(h);
      ok := false;
      if c.Some? {
        if ended && !cancelled {
          open := open - {c.value};
          pool := pool + {c.value};
          ok := true;
        } else {
          Discard(c.value);
        }
      }
      active := None;
    }

    /** An unfinished handle goes out of scope while no statement runs. */
    method DropHandle(h: Slot)
      modifies this
      ensures Now() == Step(old(Now()), Drop(h)).0
    {
      if h !in handles { return; }
      handles := handles - {h};
      active := None;
      var c := TakeSlot(h);
      if c.Some? { Discard(c.value); }
    }

    method RunStatement(e: Event) returns (r: Outcome)
      requires e.Statement?
      modifies this
      ensures Now() == Step(old(Now()), e).0 && r == Step(old(Now()), e).1
    {
      if active.Some? {
        var i := active.value;
        return if i < |slots| && slots[i].Some? then Ran(slots[i].value) else Failed;
      }
      if !e.acquired { return Failed; }
      var c := GetConnection(e.pick);
      pool := pool + {c};
      return Ran(c);
    }
  }
}
