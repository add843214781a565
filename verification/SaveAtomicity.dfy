/** Transactions with savepoints, and how a save ends in one: recovery, release and commit. */
module SaveAtomicity {
  import opened Wrappers

  datatype Savepoint<Data> = Savepoint(name: nat, data: Data)

  /** Committed data, and the open transaction's data with its savepoints, the newest last. */
  datatype Database<Data> = Database(committed: Data, txn: Option<Txn<Data>>)

  datatype Txn<Data> = Txn(data: Data, points: seq<Savepoint<Data>>)

  /** The data the next statement sees. */
  function Current<Data>(db: Database<Data>): Data {
    if db.txn.Some? then db.txn.value.data else db.committed
  }

  // ---------------------------------------------------------------------------
  // Savepoints
  // ---------------------------------------------------------------------------

  /** The newest savepoint of that name. */
  function FindPoint<Data>(points: seq<Savepoint<Data>>, name: nat, n: nat): Option<nat>
    requires n <= |points|
    ensures FindPoint(points, name, n).Some? ==> FindPoint(points, name, n).value < n
  {
    if n == 0 then None else if points[n - 1].name == name then Some(n - 1) else FindPoint(points, name, n - 1)
  }

  /** Goes back to the savepoint and forgets the newer ones. */
  function RollbackTo<Data>(t: Txn<Data>, name: nat): Txn<Data> {
    match FindPoint(t.points, name, |t.points|)
    case None => t
    case Some(i) => Txn(t.points[i].data, t.points[..i + 1])
  }

  /** Forgets the savepoint and the newer ones, keeping the data. */
  function Release<Data>(t: Txn<Data>, name: nat): Txn<Data> {
    match FindPoint(t.points, name, |t.points|)
    case None => t
    case Some(i) => t.(points := t.points[..i])
  }

  lemma {:induction false} FindLast<Data>(points: seq<Savepoint<Data>>, p: Savepoint<Data>)
    ensures FindPoint(points + [p], p.name, |points| + 1) == Some(|points|)
  {
  }

  /** Rolling back to a savepoint set before some statements and releasing it undoes exactly those. */
  lemma UndoneExactly<Data>(before: Txn<Data>, name: nat, after: Data)
    ensures var p := Savepoint(name, before.data);
      Release(RollbackTo(Txn(after, before.points + [p]), name), name) == before
  {
    var p := Savepoint(name, before.data);
    FindLast(before.points, p);
    assert (before.points + [p])[..|before.points| + 1] == before.points + [p];
    assert (before.points + [p])[..|before.points|] == before.points;
  }

  /** Releasing it after success keeps the data and the older savepoints. */
  lemma ReleasedExactly<Data>(before: Txn<Data>, name: nat, after: Data)
    ensures Release(Txn(after, before.points + [Savepoint(name, before.data)]), name) == Txn(after, before.points)
  {
    var p := Savepoint(name, before.data);
    FindLast(before.points, p);
    assert (before.points + [p])[..|before.points|] == before.points;
  }

  // ---------------------------------------------------------------------------
  // Beginning and ending a save
  // ---------------------------------------------------------------------------

  /** Whether the statements that end a save succeed. */
  datatype Endings = Endings(undone: bool, unpointed: bool, released: bool, committed: bool)

  /** A save within a caller's transaction sets a savepoint, another one begins its own transaction. */
  function Entered<Data>(db: Database<Data>, point: nat): Database<Data> {
    match db.txn
    case None => db.(txn := Some(Txn(db.committed, [])))
    case Some(t) => db.(txn := Some(Txn(t.data, t.points + [Savepoint(point, t.data)])))
  }

  /** Recovery of a save that entered with `scoped` and `point`: back to the savepoint of a caller's
      transaction, or out of the save's own. A failed rollback closes the own connection, which ends its
      transaction too. */
  function Recovered<Data>(db: Database<Data>, scoped: bool, point: nat, o: Endings): Database<Data>
    requires db.txn.Some?
  {
    if !scoped then db.(txn := None)
    else
      var t := if o.undone then RollbackTo(db.txn.value, point) else db.txn.value;
      db.(txn := Some(if o.unpointed then Release(t, point) else t))
  }

  /** The end of a save that went through, if it is not the commit that fails. */
  function Ended<Data>(db: Database<Data>, scoped: bool, point: nat, o: Endings): Database<Data>
    requires db.txn.Some?
  {
    if !scoped then Database(db.txn.value.data, None)
    else db.(txn := Some(if o.released then Release(db.txn.value, point) else db.txn.value))
  }

  /** A failed save's recovery gives back the database as it was when the rollback and the release
      succeed, and its data when the rollback does; an own transaction always goes. */
  lemma RecoveryRestores<Data>(before: Database<Data>, point: nat, data: Data, o: Endings)
    ensures var scoped := before.txn.Some?;
      var entered := Entered(before, point);
      var after := Recovered(entered.(txn := Some(entered.txn.value.(data := data))), scoped, point, o);
      && (!scoped || (o.undone && o.unpointed) ==> after == before)
      && (!scoped || o.undone ==> Current(after) == Current(before))
      && after.committed == before.committed && (after.txn.Some? <==> scoped)
  {
    if before.txn.Some? {
      var t := before.txn.value;
      UndoneExactly(t, point, data);
      FindLast(t.points, Savepoint(point, t.data));
    }
  }

  /** The data of a save that went through is in the caller's transaction, with the savepoints it had
      unless the release fails, or committed. */
  lemma EndKeeps<Data>(before: Database<Data>, point: nat, data: Data, o: Endings)
    ensures var scoped := before.txn.Some?;
      var entered := Entered(before, point);
      var after := Ended(entered.(txn := Some(entered.txn.value.(data := data))), scoped, point, o);
      && Current(after) == data && (scoped ==> after.committed == before.committed && after.txn.Some?)
      && (scoped && o.released ==> after.txn.value.points == before.txn.value.points)
      && (!scoped ==> after == Database(data, None))
  {
    if before.txn.Some? { ReleasedExactly(before.txn.value, point, data); }
  }
}
