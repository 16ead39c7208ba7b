/** The watcher's deposit rows (btcwatcher/internal/txstore.go). */
module DepositTable {
  import opened DepositKeys

  // Times of reorganisation are reduced to whether one is set.
  datatype Row = Row(user: string, sats: int, height: int, escrowed: bool, confirmed: bool, reorged: bool)

  type Rows = map<Outpoint, Row>

  // A newly seen output is added, one that was reorganised away comes back, any other is left alone.
  function Insert(rows: Rows, op: Outpoint, user: string, sats: int, height: int): Rows {
    if sats <= 0 then rows
    else if op !in rows then rows[op := Row(user, sats, height, false, false, false)]
    else if rows[op].reorged then rows[op := rows[op].(height := height, reorged := false)]
    else rows
  }

  function NotEscrowed(rows: Rows): set<Outpoint> { set op | op in rows && !rows[op].escrowed && !rows[op].reorged }

  function ReadyToConfirm(rows: Rows, minDepth: int, current: int): set<Outpoint> {
    set op | op in rows && rows[op].escrowed && !rows[op].confirmed && !rows[op].reorged
      && current - rows[op].height >= minDepth
  }

  function ReorgedEscrowed(rows: Rows): set<Outpoint> {
    set op | op in rows && rows[op].reorged && rows[op].escrowed && !rows[op].confirmed
  }

  function MarkEscrowed(rows: Rows, op: Outpoint): Rows {
    if op in rows then rows[op := rows[op].(escrowed := true)] else rows
  }

  function MarkConfirmed(rows: Rows, op: Outpoint): Rows {
    if op in rows then rows[op := rows[op].(confirmed := true)] else rows
  }

  function MarkCancelled(rows: Rows, op: Outpoint): Rows { rows - {op} }

  // The first statement of a disconnect: escrowed rows are only marked.
  function SoftDelete(rows: Rows, height: int): Rows {
    map op | op in rows ::
      if rows[op].height >= height && !rows[op].confirmed && rows[op].escrowed then rows[op].(reorged := true)
      else rows[op]
  }

  predicate HardDeleted(row: Row, height: int) { row.height >= height && !row.confirmed && !row.escrowed }

  // The second statement: rows not marked escrowed are deleted.
  function HardDelete(rows: Rows, height: int): Rows {
    map op | op in rows && !HardDeleted(rows[op], height) :: rows[op]
  }

  // The store as an object over its table.
  class TxStore {
    var rows: Rows

    constructor ()
      ensures rows == map[]
    {
      rows := map[];
    }

    method InsertDeposit(op: Outpoint, user: string, sats: int, height: int)
      modifies this
      ensures rows == Insert(old(rows), op, user, sats, height)
      ensures rows - {op} == old(rows) - {op}
      ensures 0 < sats ==> op in rows && !rows[op].reorged
      ensures op in old(rows) ==>
        op in rows && rows[op] == old(rows)[op].(height := rows[op].height, reorged := rows[op].reorged)
      ensures 0 < sats && op !in old(rows) ==> rows[op] == Row(user, sats, height, false, false, false)
      ensures 0 < sats && op in old(rows) && old(rows)[op].reorged ==> rows[op].height == height
      ensures sats <= 0 || (op in old(rows) && !old(rows)[op].reorged) ==> rows == old(rows)
    {
      if sats <= 0 {
        return;
      }
      if op !in rows {
        rows := rows[op := Row(user, sats, height, false, false, false)];
      } else if rows[op].reorged {
        rows := rows[op := rows[op].(height := height, reorged := false)];
      }
    }

    method Escrowed(op: Outpoint)
      modifies this
      ensures rows == MarkEscrowed(old(rows), op)
      ensures rows - {op} == old(rows) - {op} && rows.Keys == old(rows).Keys
      ensures NotEscrowed(rows) == NotEscrowed(old(rows)) - {op}
      ensures op in rows ==> rows[op].escrowed && rows[op].(escrowed := old(rows)[op].escrowed) == old(rows)[op]
    {
      if op in rows {
        rows := rows[op := rows[op].(escrowed := true)];
      }
    }

    method Confirmed(op: Outpoint)
      modifies this
      ensures rows == MarkConfirmed(old(rows), op)
      ensures rows - {op} == old(rows) - {op} && rows.Keys == old(rows).Keys
      ensures forall d, height :: ReadyToConfirm(rows, d, height) == ReadyToConfirm(old(rows), d, height) - {op}
      ensures ReorgedEscrowed(rows) == ReorgedEscrowed(old(rows)) - {op} && NotEscrowed(rows) == NotEscrowed(old(rows))
      ensures op in rows ==> rows[op].confirmed && rows[op].(confirmed := old(rows)[op].confirmed) == old(rows)[op]
    {
      if op in rows {
        rows := rows[op := rows[op].(confirmed := true)];
      }
    }

    method Cancelled(op: Outpoint)
      modifies this
      ensures rows == MarkCancelled(old(rows), op)
      ensures op !in rows && rows.Keys + {op} == old(rows).Keys + {op}
      ensures ReorgedEscrowed(rows) == ReorgedEscrowed(old(rows)) - {op}
        && NotEscrowed(rows) == NotEscrowed(old(rows)) - {op}
    {
      rows := rows - {op};
    }

    // Two statements, the second of which may be lost.  After both, no unconfirmed row at or above
    // the height is active, and either way every other row is untouched.
    method DeleteFromHeight(height: int, lost: bool)
      modifies this
      ensures rows == if lost then SoftDelete(old(rows), height) else HardDelete(SoftDelete(old(rows), height), height)
      ensures forall op :: op in rows && rows[op].height >= height && !rows[op].confirmed ==>
        rows[op].reorged || (lost && !rows[op].escrowed)
      ensures forall op :: op in old(rows) && (old(rows)[op].height < height || old(rows)[op].confirmed) ==>
        op in rows && rows[op] == old(rows)[op]
    {
      rows := SoftDelete(rows, height);
      if !lost {
        rows := HardDelete(rows, height);
      }
    }
  }
}
