/** The `requisicoes` table façade of handlers.py: the record inserted when a
    request arrives and the partial update applied as the pipeline advances.
    The database itself is a value (a map from record id to row); whether the
    client could be reached is an outcome supplied by the caller. */
module Ledger {

  import opened Common

  /** A column value: SQL NULL or text. */
  datatype Cell = Null | Text(s: string)

  type Row = map<string, Cell>

  /** The table, keyed by the `id` column. */
  type Table = map<string, Row>

  /** Whether a call into the database client returns or raises. */
  datatype Reach = Reachable | Raises

  const InitialStatus := "Processando"

  const RecordColumns: set<string> :=
    {"id_projeto", "cliente", "fazenda", "talhao", "data_voo", "status_orto", "id_talhao"}

  function CellOf(v: Option<string>): (c: Cell)
    ensures c.Null? <==> v.None?
  {
    if v.Some? then Text(v.value) else Null
  }

  /** The data dictionary `criar_registro_requisicao` inserts: every column of
      the request, unset ones as NULL, and the initial status. */
  function NewRecord(projectId: string, cliente: Option<string>, fazenda: Option<string>,
                     talhao: Option<string>, dataVoo: Option<string>, idTalhao: Option<string>): (r: Row)
    ensures r.Keys == RecordColumns
    ensures r["status_orto"] == Text(InitialStatus)
    ensures r["id_projeto"] == Text(projectId)
    ensures r["cliente"] == CellOf(cliente) && r["fazenda"] == CellOf(fazenda) && r["talhao"] == CellOf(talhao)
    ensures r["data_voo"] == CellOf(dataVoo) && r["id_talhao"] == CellOf(idTalhao)
  {
    map["id_projeto" := Text(projectId), "cliente" := CellOf(cliente), "fazenda" := CellOf(fazenda),
        "talhao" := CellOf(talhao), "data_voo" := CellOf(dataVoo), "status_orto" := Text(InitialStatus),
        "id_talhao" := CellOf(idTalhao)]
  }

  /** What the insert returns: the client raised, or it answered and an id
      could (or could not) be read back from the answer. */
  datatype InsertOutcome = InsertRaised | InsertAnswered(extractedId: Option<string>)

  /** The id `criar_registro_requisicao` returns: `None` on every failure,
      never an exception. */
  function CreateRecord(insert: InsertOutcome): (id: Option<string>)
    ensures id.Some? ==> insert == InsertAnswered(id)
    ensures insert.InsertRaised? ==> id.None?
    ensures insert.InsertAnswered? && insert.extractedId.None? ==> id.None?
    ensures insert.InsertAnswered? ==> id == insert.extractedId
  {
    match insert
    case InsertRaised => None
    case InsertAnswered(extracted) => extracted
  }

  const UpdatableColumns: set<string> := {"id_wl", "status_orto", "url_ortomosaico"}

  /** The `data` dictionary of `atualizar_registro_requisicao`: exactly the
      arguments that are not `None`. */
  function UpdateFields(idWl: Option<string>, status: Option<string>, url: Option<string>): (d: map<string, string>)
    ensures d.Keys <= UpdatableColumns
    ensures ("id_wl" in d <==> idWl.Some?) && (idWl.Some? ==> d["id_wl"] == idWl.value)
    ensures ("status_orto" in d <==> status.Some?) && (status.Some? ==> d["status_orto"] == status.value)
    ensures ("url_ortomosaico" in d <==> url.Some?) && (url.Some? ==> d["url_ortomosaico"] == url.value)
  {
    var d0: map<string, string> := map[];
    var d1 := if idWl.Some? then d0["id_wl" := idWl.value] else d0;
    var d2 := if status.Some? then d1["status_orto" := status.value] else d1;
    if url.Some? then d2["url_ortomosaico" := url.value] else d2
  }

  /** The row after the database applies an update: the given columns are
      overwritten, every other column is kept. */
  function ApplyFields(row: Row, fields: map<string, string>): (r: Row)
    ensures r.Keys == row.Keys + fields.Keys
    ensures forall k :: k in fields ==> r[k] == Text(fields[k])
    ensures forall k :: k in row && k !in fields ==> r[k] == row[k]
  {
    map k | k in row.Keys + fields.Keys :: if k in fields then Text(fields[k]) else row[k]
  }

  /** The flag `atualizar_registro_requisicao` returns: an update was sent
      and the client did not raise. */
  predicate Acknowledged(fields: map<string, string>, db: Reach)
  {
    fields != map[] && db.Reachable?
  }

  /** `atualizar_registro_requisicao`: the new table and the returned flag.
      Nothing is written when no field is given or the client raises; the
      flag is True whenever the update was sent, even if no row has that id. */
  function UpdateRecord(table: Table, recordId: string, fields: map<string, string>, db: Reach): (r: (Table, bool))
    ensures r.1 <==> fields != map[] && db.Reachable?
    ensures r.1 == Acknowledged(fields, db)
    ensures !r.1 ==> r.0 == table
    ensures r.0.Keys == table.Keys
    ensures forall id :: id in table && id != recordId ==> r.0[id] == table[id]
    ensures r.1 && recordId in table ==> r.0[recordId] == ApplyFields(table[recordId], fields)
  {
    if !Acknowledged(fields, db) then (table, false)
    else if recordId in table then (table[recordId := ApplyFields(table[recordId], fields)], true)
    else (table, true)
  }

  /** A partial update leaves every column outside the given fields as it
      was, in particular the ones `criar_registro_requisicao` wrote. */
  lemma UpdateKeepsOtherColumns(table: Table, recordId: string, idWl: Option<string>,
                                status: Option<string>, url: Option<string>, db: Reach, column: string)
    requires recordId in table && column in table[recordId]
    requires column !in UpdatableColumns
    ensures column in UpdateRecord(table, recordId, UpdateFields(idWl, status, url), db).0[recordId]
    ensures UpdateRecord(table, recordId, UpdateFields(idWl, status, url), db).0[recordId][column] == table[recordId][column]
  {
  }

  /** Called with no field at all, the update writes nothing and reports
      failure, whatever the database state. */
  lemma EmptyUpdateFails(table: Table, recordId: string, db: Reach)
    ensures UpdateFields(None, None, None) == map[]
    ensures UpdateRecord(table, recordId, UpdateFields(None, None, None), db) == (table, false)
  {
  }

  /** The update reports success for an id the table does not hold. */
  lemma UpdateOfUnknownRecordSucceeds(table: Table, recordId: string, status: string)
    requires recordId !in table
    ensures UpdateRecord(table, recordId, UpdateFields(None, Some(status), None), Reachable) == (table, true)
  {
  }
}
