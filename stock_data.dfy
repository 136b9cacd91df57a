/**
 * The data shared by the stream processor (which writes the `stock-data`
 * table) and the trend analyzer (which reads it): the stored row, its key,
 * the table as a map from key to row, and the upsert that `put_item` performs.
 */
module StockData {

  datatype Option<+T> = None | Some(value: T)

  /** A value or the reason it could not be produced; usable with `:-`. */
  datatype Result<+T, +E> = Ok(value: T) | Err(error: E) {
    predicate IsFailure() {
      Err?
    }

    function PropagateFailure<U>(): Result<U, E>
      requires Err?
    {
      Err(error)
    }

    function Extract(): T
      requires Ok?
    {
      value
    }
  }

  /** One item of the `stock-data` table; prices are exact reals. */
  datatype Row = Row(
    ticker: string,
    timestamp: int,
    price: real,
    close: real,
    volume: int,
    high: real,
    low: real,
    open: real)

  /** The table's primary key: partition key `ticker`, sort key `timestamp`. */
  type Key = (string, int)

  function KeyOf(row: Row): Key {
    (row.ticker, row.timestamp)
  }

  type Table = map<Key, Row>

  /** Every row is stored under its own key attributes, as in the real table. */
  ghost predicate WellKeyed(table: Table) {
    forall k :: k in table ==> KeyOf(table[k]) == k
  }

  /** `put_item`: replaces whatever row has the same key, touches nothing else. */
  function Upsert(table: Table, row: Row): (t: Table)
    ensures KeyOf(row) in t && t[KeyOf(row)] == row
    ensures forall k :: k != KeyOf(row) ==> (k in t <==> k in table)
    ensures forall k :: k != KeyOf(row) && k in table ==> t[k] == table[k]
    ensures WellKeyed(table) ==> WellKeyed(t)
  {
    table[KeyOf(row) := row]
  }

  /** Writing the same row twice leaves the table as writing it once. */
  lemma UpsertIdempotent(table: Table, row: Row)
    ensures Upsert(Upsert(table, row), row) == Upsert(table, row)
  {
  }
}
