// Rows of a model's table, the events its writes record, and the text a projection stores.
module Tables {
  import opened Wrappers

  // A column value: absent, text, or anything else with its JSON rendering.
  datatype Value = Null | Text(text: string) | Other(json: string)

  type Record = map<string, Value>

  type Table = map<string, Record>

  datatype Kind = Created | Updated | Deleted | Restored | HardDeleted | Custom

  datatype Event = Event(id: string, kind: Kind, model: string, data: Record, timestamp: string)

  // A row of the event log: the event under its writer's own timestamp, and the database's time of the insert.
  datatype Row = Row(event: Event, createdAt: real, bytes: nat)

  // What a projection's TEXT column holds for a value.
  function ToText(v: Value): string {
    match v
    case Text(text) => text
    case Null => ""
    case Other(json) => json
  }

  // A projected row has every projected column; a column never written is NULL.
  type Cells = map<string, Option<string>>

  type Projected = map<string, Cells>

  function Shown(data: Record, column: string): Option<string> {
    if column in data then Some(ToText(data[column])) else None
  }

  function Rendered(columns: seq<string>, data: Record): Cells {
    map c | c in columns :: Shown(data, c)
  }

  const ID := "id"
  const DELETED_AT := "deleted_at"

  predicate HasId(data: Record) { ID in data && data[ID].Text? }

  function IdOf(data: Record): string { if HasId(data) then data[ID].text else "" }

  predicate Live(row: Record) { DELETED_AT !in row || row[DELETED_AT] == Null }

  // The rows a reader sees, as a projection should show them.
  function LiveRows(columns: seq<string>, base: Table): Projected {
    map id | id in base && Live(base[id]) :: Rendered(columns, base[id])
  }

  // A projection shows exactly the rows not marked deleted, and in each projected column a text as it is, another
  // value by its JSON, null as nothing, and NULL for a column the row never had.
  lemma LiveRowsShow(columns: seq<string>, base: Table, id: string, column: string, text: string)
    requires id in base && column in columns
    ensures id in LiveRows(columns, base) <==> DELETED_AT !in base[id] || base[id][DELETED_AT] == Null
    ensures id in LiveRows(columns, base) ==>
              var shown := LiveRows(columns, base)[id];
              column in shown &&
              (column in base[id] && base[id][column] == Text(text) ==> shown[column] == Some(text)) &&
              (column in base[id] && base[id][column] == Other(text) ==> shown[column] == Some(text)) &&
              (column in base[id] && base[id][column] == Null ==> shown[column] == Some("")) &&
              (column !in base[id] ==> shown[column] == None)
  {
  }
}
