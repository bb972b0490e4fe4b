/** The order table as the order service reads it. */
module TableDomain {

  /** A seating unit: its id and whether it is currently empty. */
  datatype OrderTable = OrderTable(id: int, empty: bool)

  /** A table store keyed by id holds every table under its own id. */
  ghost predicate TablesKeyed(tables: map<int, OrderTable>)
  {
    forall k | k in tables :: tables[k].id == k
  }
}
