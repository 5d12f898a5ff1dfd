/** The storage as the backend uses it: prepared statements on the tables, row loops, and one transaction. */
module SqliteStorages {
  import opened Common
  import opened Reservations
  import opened Storage

  class SqliteStorage {
    var tables: Tables
    var saved: Option<Tables> // what a rollback restores, while a transaction is open

    constructor ()
      ensures tables == EMPTY && saved.None?
    {
      tables, saved := EMPTY, None;
    }

    method BeginTransaction()
      modifies this`saved
      ensures saved == Some(old(tables))
    {
      saved := Some(tables);
    }

    method CommitTransaction()
      modifies this`saved
      ensures saved.None?
    {
      saved := None;
    }

    method RollbackTransaction()
      requires saved.Some?
      modifies this`tables, this`saved
      ensures tables == old(saved).value && saved.None?
    {
      tables, saved := saved.value, None;
    }

    method DeleteAll()
      modifies this`tables
      ensures tables == EMPTY
    {
      tables := EMPTY;
    }

    method DeleteReservationById(id: int)
      modifies this`tables
      ensures tables == Delete(old(tables), id)
    {
      tables := tables.(atoms := WithoutAtoms(tables.atoms, id));
    }

    method InsertAtoms(reservationId: int, atoms: seq<Atom>) returns (inserted: seq<Atom>)
      modifies this`tables
      ensures inserted == Numbered(atoms, old(tables.nextAtomId))
      ensures tables == old(tables).(
                atoms := old(tables.atoms) + AtomRows(atoms, reservationId, old(tables.nextAtomId)),
                nextAtomId := old(tables.nextAtomId) + |atoms|)
    {
      ghost var before, first := tables, tables.nextAtomId;
      inserted := [];
      assert before.atoms + AtomRows(atoms[..0], reservationId, first) == before.atoms;
      for i := 0 to |atoms|
        invariant inserted == Numbered(atoms[..i], first)
        invariant tables == before.(atoms := before.atoms + AtomRows(atoms[..i], reservationId, first),
                                    nextAtomId := first + i)
      {
        var row := AtomRow(tables.nextAtomId, reservationId, atoms[i].roomId, atoms[i].range.begin, atoms[i].range.end);
        assert AtomRows(atoms[..i + 1], reservationId, first) == AtomRows(atoms[..i], reservationId, first) + [row];
        inserted := inserted + [atoms[i].(id := tables.nextAtomId)];
        tables := tables.(atoms := tables.atoms + [row], nextAtomId := tables.nextAtomId + 1);
      }
      assert atoms[..|atoms|] == atoms;
    }

    method StoreNewReservationAndAtoms(r: ReservationData) returns (stored: ReservationData)
      modifies this`tables
      ensures (tables, stored) == StoreNew(old(tables), r)
    {
      var id := tables.nextId;
      tables := tables.(reservations := tables.reservations[id := RowOf(r, 1)], nextId := id + 1);
      var atoms := InsertAtoms(id, r.atoms);
      stored := ReservationData(r.header.(id := id, revision := 1), atoms);
    }

    /** Refused, with nothing changed, exactly if there is no row with this identifier and revision. */
    method UpdateReservation(r: ReservationData) returns (ok: bool, updated: ReservationData)
      modifies this`tables
      ensures ok == Matches(old(tables), r.header)
      ensures if ok then (tables, updated) == Update(old(tables), r) else tables == old(tables) && updated == r
    {
      updated := r;
      var id := r.header.id;
      ok := id in tables.reservations && tables.reservations[id].revision == r.header.revision;
      if ok {
        tables := tables.(reservations := tables.reservations[id := RowOf(r, r.header.revision + 1)],
                          atoms := WithoutAtoms(tables.atoms, id));
        var atoms := InsertAtoms(id, r.atoms);
        updated := ReservationData(r.header.(revision := r.header.revision + 1), atoms);
      }
    }

    method LoadAllReservations() returns (result: Result<seq<ReservationData>, Failure>)
      ensures result == LoadAll(tables)
    {
      var rows := RowsBelow(tables, tables.nextId);
      var current: Option<ReservationData> := None;
      var done: seq<ReservationData> := [];
      for i := 0 to |rows|
        invariant Fold(rows[i..], current, done) == Fold(rows, None, [])
      {
        assert rows[i..][0] == rows[i] && rows[i..][1..] == rows[i + 1..];
        if current.None? || current.value.header.id != rows[i].id {
          if current.Some? {
            done := done + [current.value];
          }
          current := Some(Started(rows[i]));
        } else {
          match Continued(current.value, rows[i])
          case Err(e) => return Err(e);
          case Ok(longer) => current := Some(longer);
        }
      }
      result := Ok(if current.Some? then done + [current.value] else done);
    }

    method LoadReservationById(id: int) returns (result: Result<Option<ReservationData>, Failure>)
      ensures LoadById(tables, id) ==
              match result
              case Err(e) => Err(e)
              case Ok(None) => Ok([])
              case Ok(Some(r)) => Ok([r])
    {
      var rows := RowsById(tables, id);
      var current: Option<ReservationData> := None;
      for i := 0 to |rows|
        invariant current.Some? ==> current.value.header.id == id
        invariant Fold(rows[i..], current, []) == Fold(rows, None, [])
      {
        assert rows[i..][0] == rows[i] && rows[i..][1..] == rows[i + 1..];
        if current.None? {
          current := Some(Started(rows[i]));
        } else {
          match Continued(current.value, rows[i])
          case Err(e) => return Err(e);
          case Ok(longer) => current := Some(longer);
        }
      }
      assert current.Some? ==> [] + [current.value] == [current.value];
      result := Ok(current);
    }
  }
}
