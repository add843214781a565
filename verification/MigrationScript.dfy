/** Scripts between two migrations, and applying pending migrations, over schema and history. */
module MigrationScript {
  import opened Wrappers
  import opened MigrationSchema
  import opened MigrationDiff

  datatype Migration = Migration(id: Name, changes: seq<Change>)

  /** The up or down SQL of one migration, with its history row. */
  datatype Block = Up(migration: Migration) | Down(migration: Migration)

  datatype Database = Database(schema: Schema, history: set<Name>)

  /** Runs one block; recording an id twice violates the history table's primary key. */
  function RunBlock(d: Dialect, db: Database, b: Block): Option<Database> {
    match b
    case Up(m) =>
      (match RunUp(db.schema, m.changes, |m.changes|)
       case None => None
       case Some(s) => if m.id in db.history then None else Some(Database(s, db.history + {m.id})))
    case Down(m) =>
      (match RunDown(d, db.schema, m.changes, |m.changes|)
       case None => None
       case Some(s) => Some(Database(s, db.history - {m.id})))
  }

  function RunBlocks(d: Dialect, db: Database, bs: seq<Block>, n: nat): Option<Database>
    requires n <= |bs|
  {
    if n == 0 then Some(db)
    else match RunBlocks(d, db, bs, n - 1)
         case None => None
         case Some(u) => RunBlock(d, u, bs[n - 1])
  }

  /** The blocks from the state with `a` migrations applied to the state with `b`. */
  ghost function Steps(ms: seq<Migration>, a: nat, b: nat): (bs: seq<Block>)
    requires a <= |ms| && b <= |ms|
    ensures |bs| == if a <= b then b - a else a - b
  {
    if a <= b then seq(b - a, k requires 0 <= k < b - a => Up(ms[a + k]))
    else seq(a - b, k requires 0 <= k < a - b => Down(ms[a - 1 - k]))
  }

  method FindPosition(ms: seq<Migration>, id: Name) returns (p: Option<nat>)
    ensures p.None? ==> forall k :: 0 <= k < |ms| ==> ms[k].id != id
    ensures p.Some? ==> p.value < |ms| && ms[p.value].id == id && forall k :: 0 <= k < p.value ==> ms[k].id != id
  {
    for i := 0 to |ms|
      invariant forall k :: 0 <= k < i ==> ms[k].id != id
    {
      if ms[i].id == id { return Some(i); }
    }
    return None;
  }

  /** `n` migrations are applied once `id` is, counting from the first migration called so. */
  ghost predicate AppliedThrough(ms: seq<Migration>, id: Name, n: nat) {
    0 < n <= |ms| && ms[n - 1].id == id && forall k :: 0 <= k < n - 1 ==> ms[k].id != id
  }

  ghost predicate Unknown(ms: seq<Migration>, id: Option<Name>) {
    id.Some? && forall k :: 0 <= k < |ms| ==> ms[k].id != id.value
  }

  /** The script from `from` (exclusive; none is the empty database) to `to` (inclusive; none is
      the latest migration). */
  method GenerateScript(ms: seq<Migration>, from: Option<Name>, to: Option<Name>)
    returns (r: Result<seq<Block>, Name>, ghost a: nat, ghost b: nat)
    ensures r.Err? <==> Unknown(ms, from) || Unknown(ms, to)
    ensures r.Err? ==> r.error == if Unknown(ms, from) then from.value else to.value
    ensures r.Ok? ==> if from.None? then a == 0 else AppliedThrough(ms, from.value, a)
    ensures r.Ok? ==> if to.None? then b == |ms| else AppliedThrough(ms, to.value, b)
    ensures r.Ok? ==> a <= |ms| && b <= |ms| && r.value == Steps(ms, a, b)
  {
    var start, end := 0, |ms|;
    a, b := 0, 0;
    if from.Some? {
      var p := FindPosition(ms, from.value);
      if p.None? { return Err(from.value), 0, 0; }
      start := p.value + 1;
    }
    if to.Some? {
      var p := FindPosition(ms, to.value);
      if p.None? { return Err(to.value), 0, 0; }
      end := p.value + 1;
    }
    a, b := start, end;
    var blocks := WriteBlocks(ms, start, end);
    r := Ok(blocks);
  }

  method WriteBlocks(ms: seq<Migration>, start: nat, end: nat) returns (blocks: seq<Block>)
    requires start <= |ms| && end <= |ms|
    ensures blocks == Steps(ms, start, end)
  {
    blocks := [];
    ghost var steps := Steps(ms, start, end);
    if start < end {
      for k := start to end
        invariant |blocks| == k - start && forall j :: 0 <= j < |blocks| ==> blocks[j] == steps[j]
      {
        blocks := blocks + [Up(ms[k])];
      }
    } else {
      for k := start downto end
        invariant |blocks| == start - k && forall j :: 0 <= j < |blocks| ==> blocks[j] == steps[j]
      {
        blocks := blocks + [Down(ms[k])];
      }
    }
  }

  // ---------------------------------------------------------------------------
  // What scripts do
  // ---------------------------------------------------------------------------

  ghost predicate DiffAt(ms: seq<Migration>, snaps: seq<seq<EntityType>>, k: nat)
    requires k < |ms| && |snaps| == |ms| + 1
  {
    IsDiff(snaps[k], snaps[k + 1], ms[k].changes)
  }

  /** Each migration is the diff from one snapshot to the next, starting from the empty one. */
  ghost predicate Chain(ms: seq<Migration>, snaps: seq<seq<EntityType>>) {
    && |snaps| == |ms| + 1 && snaps[0] == []
    && (forall k :: 0 <= k < |ms| ==> DiffAt(ms, snaps, k))
    && forall i, j :: 0 <= i < j < |ms| ==> ms[i].id != ms[j].id
  }

  ghost function StateAt(ms: seq<Migration>, snaps: seq<seq<EntityType>>, k: nat): Database
    requires k <= |ms| && |snaps| == |ms| + 1
  {
    Database(SnapshotSchema(snaps[k]), set i | 0 <= i < k :: ms[i].id)
  }

  lemma UpStep(d: Dialect, ms: seq<Migration>, snaps: seq<seq<EntityType>>, k: nat)
    requires Chain(ms, snaps) && k < |ms|
    ensures RunBlock(d, StateAt(ms, snaps, k), Up(ms[k])) == Some(StateAt(ms, snaps, k + 1))
  {
    assert DiffAt(ms, snaps, k);
    assert StateAt(ms, snaps, k + 1).history == StateAt(ms, snaps, k).history + {ms[k].id};
    assert ms[k].id !in StateAt(ms, snaps, k).history;
  }

  /** One down block restores the state before its migration exactly when nothing was dropped. */
  lemma DownStep(d: Dialect, ms: seq<Migration>, snaps: seq<seq<EntityType>>, k: nat)
    requires Chain(ms, snaps) && k < |ms|
    ensures RunBlock(d, StateAt(ms, snaps, k + 1), Down(ms[k])) == Some(StateAt(ms, snaps, k)) <==> KeptAt(snaps, k)
  {
    assert DiffAt(ms, snaps, k);
    DownUndoesUp(d, snaps[k], snaps[k + 1], ms[k].changes);
    assert StateAt(ms, snaps, k + 1).history - {ms[k].id} == StateAt(ms, snaps, k).history;
  }

  ghost predicate StepAt(d: Dialect, bs: seq<Block>, states: seq<Database>, k: nat)
    requires k < |bs| && |states| == |bs| + 1
  {
    RunBlock(d, states[k], bs[k]) == Some(states[k + 1])
  }

  /** `states` are the states a block list passes through. */
  ghost predicate Path(d: Dialect, bs: seq<Block>, states: seq<Database>) {
    && |states| == |bs| + 1
    && forall k :: 0 <= k < |bs| ==> StepAt(d, bs, states, k)
  }

  lemma {:induction false} PathRuns(d: Dialect, bs: seq<Block>, states: seq<Database>, n: nat)
    requires Path(d, bs, states) && n <= |bs|
    ensures RunBlocks(d, states[0], bs, n) == Some(states[n])
  {
    if n > 0 {
      PathRuns(d, bs, states, n - 1);
      assert StepAt(d, bs, states, n - 1);
    }
  }

  ghost function StatesUp(ms: seq<Migration>, snaps: seq<seq<EntityType>>, a: nat, b: nat): seq<Database>
    requires a <= b <= |ms| && |snaps| == |ms| + 1
  {
    seq(b - a + 1, k requires 0 <= k <= b - a => StateAt(ms, snaps, a + k))
  }

  ghost function StatesDown(ms: seq<Migration>, snaps: seq<seq<EntityType>>, a: nat, b: nat): seq<Database>
    requires b <= a <= |ms| && |snaps| == |ms| + 1
  {
    seq(a - b + 1, k requires 0 <= k <= a - b => StateAt(ms, snaps, a - k))
  }

  /** A forward script passes through the state of every migration. */
  lemma ForwardScript(d: Dialect, ms: seq<Migration>, snaps: seq<seq<EntityType>>, a: nat, b: nat)
    requires Chain(ms, snaps) && a <= b <= |ms|
    ensures Path(d, Steps(ms, a, b), StatesUp(ms, snaps, a, b))
  {
    var bs, states := Steps(ms, a, b), StatesUp(ms, snaps, a, b);
    forall k | 0 <= k < |bs| ensures StepAt(d, bs, states, k) {
      UpStepAt(d, ms, snaps, a, b, a + k);
    }
  }

  lemma UpStepAt(d: Dialect, ms: seq<Migration>, snaps: seq<seq<EntityType>>, a: nat, b: nat, k: nat)
    requires Chain(ms, snaps) && a <= k < b <= |ms|
    ensures StepAt(d, Steps(ms, a, b), StatesUp(ms, snaps, a, b), k - a)
  {
    UpStep(d, ms, snaps, k);
    StepOf(d, Steps(ms, a, b), StatesUp(ms, snaps, a, b), k - a, StateAt(ms, snaps, k), Up(ms[k]),
           StateAt(ms, snaps, k + 1));
  }

  lemma StepOf(d: Dialect, bs: seq<Block>, states: seq<Database>, k: nat, before: Database, b: Block, after: Database)
    requires k < |bs| && |states| == |bs| + 1 && states[k] == before && bs[k] == b && states[k + 1] == after
    ensures StepAt(d, bs, states, k) <==> RunBlock(d, before, b) == Some(after)
  {
  }

  ghost predicate KeptAt(snaps: seq<seq<EntityType>>, k: nat)
    requires k + 1 < |snaps|
  {
    Keeps(snaps[k], snaps[k + 1])
  }

  ghost predicate AllKept(snaps: seq<seq<EntityType>>, b: nat, a: nat)
    requires a < |snaps|
  {
    forall k :: b <= k < a ==> KeptAt(snaps, k)
  }

  lemma DownStepAt(d: Dialect, ms: seq<Migration>, snaps: seq<seq<EntityType>>, a: nat, b: nat, k: nat)
    requires Chain(ms, snaps) && b <= k < a <= |ms|
    ensures StepAt(d, Steps(ms, a, b), StatesDown(ms, snaps, a, b), a - 1 - k) <==> KeptAt(snaps, k)
  {
    DownStep(d, ms, snaps, k);
    StepOf(d, Steps(ms, a, b), StatesDown(ms, snaps, a, b), a - 1 - k, StateAt(ms, snaps, k + 1), Down(ms[k]),
           StateAt(ms, snaps, k));
  }

  /** A reverse script passes through the state of every migration exactly when no migration it
      reverts dropped anything. */
  lemma ReverseScript(d: Dialect, ms: seq<Migration>, snaps: seq<seq<EntityType>>, a: nat, b: nat)
    requires Chain(ms, snaps) && b <= a <= |ms|
    ensures Path(d, Steps(ms, a, b), StatesDown(ms, snaps, a, b)) <==> AllKept(snaps, b, a)
  {
    var bs, states := Steps(ms, a, b), StatesDown(ms, snaps, a, b);
    if AllKept(snaps, b, a) {
      forall j | 0 <= j < |bs| ensures StepAt(d, bs, states, j) {
        DownStepAt(d, ms, snaps, a, b, a - 1 - j);
      }
    } else {
      var k :| b <= k < a && !KeptAt(snaps, k);
      DownStepAt(d, ms, snaps, a, b, k);
    }
  }

  /** Running the script from `a` to `b` and then the one back leaves schema and history as they were. */
  lemma ScriptThereAndBack(d: Dialect, ms: seq<Migration>, snaps: seq<seq<EntityType>>, a: nat, b: nat)
      returns (there: seq<Database>, back: seq<Database>)
    requires Chain(ms, snaps) && a <= b <= |ms| && AllKept(snaps, a, b)
    ensures Path(d, Steps(ms, a, b), there) && Path(d, Steps(ms, b, a), back)
    ensures there[0] == StateAt(ms, snaps, a) && there[b - a] == back[0] && back[b - a] == there[0]
  {
    ForwardScript(d, ms, snaps, a, b);
    ReverseScript(d, ms, snaps, b, a);
    there, back := StatesUp(ms, snaps, a, b), StatesDown(ms, snaps, b, a);
  }

  lemma ComposedAt(ms: seq<Migration>, a: nat, b: nat, c: nat, k: nat)
    requires a <= b <= c <= |ms| && k < c - a
    ensures (Steps(ms, a, b) + Steps(ms, b, c))[k] == Up(ms[a + k])
  {
    if k >= b - a { assert Steps(ms, b, c)[k - (b - a)] == Up(ms[b + (k - (b - a))]); }
  }

  /** Scripts in one direction compose. */
  lemma ForwardScriptsCompose(ms: seq<Migration>, a: nat, b: nat, c: nat)
    requires a <= b <= c <= |ms|
    ensures Steps(ms, a, b) + Steps(ms, b, c) == Steps(ms, a, c)
  {
    forall k | 0 <= k < c - a ensures (Steps(ms, a, b) + Steps(ms, b, c))[k] == Steps(ms, a, c)[k] {
      ComposedAt(ms, a, b, c, k);
    }
  }

  lemma ReverseScriptsCompose(ms: seq<Migration>, a: nat, b: nat, c: nat)
    requires c <= b <= a <= |ms|
    ensures Steps(ms, a, b) + Steps(ms, b, c) == Steps(ms, a, c)
  {
    var x, y := Steps(ms, a, b), Steps(ms, b, c);
    if a > b && b > c {
      forall k | 0 <= k < a - c ensures (x + y)[k] == Down(ms[a - 1 - k]) {
        if k >= |x| { assert y[k - |x|] == Down(ms[b - 1 - (k - |x|)]); }
      }
    }
  }

  // ---------------------------------------------------------------------------
  // Applying what is pending
  // ---------------------------------------------------------------------------

  class Store {
    const dialect: Dialect
    var db: Database

    constructor (d: Dialect, start: Database)
      ensures db == start && dialect == d
    {
      dialect, db := d, start;
    }

    /** Runs the up SQL unless the id is recorded; a failing statement leaves the state open. */
    method ApplyMigration(m: Migration) returns (ok: bool)
      modifies this
      ensures m.id in old(db).history ==> ok && db == old(db)
      ensures m.id !in old(db).history ==> ok == RunBlock(dialect, old(db), Up(m)).Some?
      ensures m.id !in old(db).history && ok ==> Some(db) == RunBlock(dialect, old(db), Up(m))
    {
      if m.id in db.history { return true; }
      var r := RunBlock(dialect, db, Up(m));
      ok := r.Some?;
      if ok { db := r.value; }
    }

    /** From the state of any migration, brings the database to the latest one and counts what it applied. */
    method ApplyPending(ms: seq<Migration>, ghost snaps: seq<seq<EntityType>>, ghost done: nat)
      returns (count: nat, ok: bool)
      requires Chain(ms, snaps) && done <= |ms| && db == StateAt(ms, snaps, done)
      modifies this
      ensures ok && count == |ms| - done && db == StateAt(ms, snaps, |ms|)
    {
      var applied := db.history;
      count, ok := 0, true;
      for k := 0 to |ms|
        invariant applied == StateAt(ms, snaps, done).history && ok
        invariant db == StateAt(ms, snaps, if k <= done then done else k)
        invariant count == if k <= done then 0 else k - done
      {
        AppliedIds(ms, snaps, done, k);
        if ms[k].id in applied { continue; }
        AppliedIds(ms, snaps, k, k);
        UpStep(dialect, ms, snaps, k);
        ok := ApplyMigration(ms[k]);
        count := count + 1;
      }
    }

    /** Runs the down SQL of a recorded migration. */
    method Revert(m: Migration) returns (ok: bool)
      modifies this
      ensures ok ==> m.id in old(db).history && Some(db) == RunBlock(dialect, old(db), Down(m))
      ensures !ok ==> m.id !in old(db).history || RunBlock(dialect, old(db), Down(m)) == None
      ensures m.id !in old(db).history ==> db == old(db)
    {
      if m.id !in db.history { return false; }
      var r := RunBlock(dialect, db, Down(m));
      ok := r.Some?;
      if ok { db := r.value; }
    }

    /** Reverts what was applied after the target, latest first. `applied` is the history as queried, in
        the order of the ids. When it records the first migrations and none of the reverted ones dropped
        anything, the database is left at the target's state; an unapplied target changes nothing. */
    method RevertToTarget(ms: seq<Migration>, applied: seq<Name>, target: Option<Name>,
                          ghost snaps: seq<seq<EntityType>>)
      returns (r: Result<seq<Name>, RevertError>)
      modifies this
      ensures target.Some? && target.value !in applied ==> r == Err(NotApplied(target.value)) && db == old(db)
      ensures r.Ok? ==>
        exists start: nat :: StartsAfter(applied, target, start) && r.value == Reversed(applied, start, |applied|)
      ensures forall start: nat :: (
        && StartsAfter(applied, target, start) && Revertible(ms, snaps, applied, start)
        && old(db) == StateAt(ms, snaps, |applied|)
        ==> r == Ok(Reversed(applied, start, |applied|)) && db == StateAt(ms, snaps, start))
    {
      var start := 0;
      if target.Some? {
        var p := FindId(applied, target.value);
        if p.None? { return Err(NotApplied(target.value)); }
        start := p.value + 1;
      }
      ghost var works := Revertible(ms, snaps, applied, start) && db == StateAt(ms, snaps, |applied|);
      var reverted, k := [], |applied|;
      while k > start
        invariant start <= k <= |applied| && reverted == Reversed(applied, k, |applied|)
        invariant works ==> Revertible(ms, snaps, applied, start) && db == StateAt(ms, snaps, k)
      {
        k := k - 1;
        var m := FindPosition(ms, applied[k]);
        if works { RevertStep(dialect, ms, snaps, applied, start, k); }
        if m.None? { return Err(Missing(applied[k])); }
        var ok := Revert(ms[m.value]);
        if !ok { return Err(Failed(applied[k])); }
        reverted := reverted + [applied[k]];
      }
      r := Ok(reverted);
    }
  }

  /** The position after the target's first place in the history; the beginning without a target. */
  ghost predicate StartsAfter(applied: seq<Name>, target: Option<Name>, start: nat) {
    && start <= |applied|
    && match target
       case None => start == 0
       case Some(t) => start > 0 && applied[start - 1] == t && t !in applied[..start - 1]
  }

  /** The history records the first migrations, in their order, and those from `start` on dropped nothing. */
  ghost predicate Revertible(ms: seq<Migration>, snaps: seq<seq<EntityType>>, applied: seq<Name>, start: nat) {
    && Chain(ms, snaps) && start <= |applied| <= |ms|
    && (forall k :: 0 <= k < |applied| ==> applied[k] == ms[k].id)
    && AllKept(snaps, start, |applied|)
  }

  datatype RevertError = NotApplied(id: Name) | Missing(id: Name) | Failed(id: Name)

  /** The ids from `b` up to `a`, latest first. */
  function Reversed(ids: seq<Name>, b: nat, a: nat): (r: seq<Name>)
    requires b <= a <= |ids|
    ensures |r| == a - b && forall k :: 0 <= k < |r| ==> r[k] == ids[a - 1 - k]
    decreases a - b
  {
    if b == a then [] else Reversed(ids, b + 1, a) + [ids[b]]
  }

  method FindId(ids: seq<Name>, id: Name) returns (p: Option<nat>)
    ensures p.None? <==> id !in ids
    ensures p.Some? ==> p.value < |ids| && ids[p.value] == id && id !in ids[..p.value]
  {
    for i := 0 to |ids|
      invariant id !in ids[..i]
    {
      if ids[i] == id { return Some(i); }
    }
    return None;
  }

  lemma RevertStep(d: Dialect, ms: seq<Migration>, snaps: seq<seq<EntityType>>, applied: seq<Name>, start: nat, k: nat)
    requires Revertible(ms, snaps, applied, start) && start <= k < |applied|
    ensures forall i :: 0 <= i < |ms| ==> (ms[i].id == applied[k] <==> i == k)
    ensures ms[k].id in StateAt(ms, snaps, k + 1).history
    ensures RunBlock(d, StateAt(ms, snaps, k + 1), Down(ms[k])) == Some(StateAt(ms, snaps, k))
  {
    assert KeptAt(snaps, k);
    DownStep(d, ms, snaps, k);
  }

  lemma AppliedIds(ms: seq<Migration>, snaps: seq<seq<EntityType>>, done: nat, k: nat)
    requires Chain(ms, snaps) && done <= |ms| && k < |ms|
    ensures ms[k].id in StateAt(ms, snaps, done).history <==> k < done
  {
  }
}
