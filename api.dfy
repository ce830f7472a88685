/** The `/processar` route of main.py as a decision: which answer a request
    gets, which record it inserts and which job it hands to the driver. The
    web framework, the key check and the thread are not part of this
    model; the insert is an outcome supplied by the caller. */
module Api {

  import opened Common
  import Ledger
  import Metadata

  /** The request body as the handler reads it: `request.json` raised (the
      message of the exception), or it returned JSON `null` (`None`) or an
      object whose values are strings. Other JSON values are not part of
      this model. */
  datatype Body = Unreadable(message: string) | Json(data: Option<Metadata.Request>)

  /** The call of `processar_projeto` the route starts. */
  datatype Job = Job(projectId: string, recordId: string, request: Metadata.Request)

  /** The HTTP answer, the row whose insert was attempted, and the job
      started. */
  datatype Answer = Answer(code: int, body: map<string, string>, inserted: Option<Ledger.Row>, job: Option<Job>)

  const NoDataError := "Nenhum dado recebido"
  const MissingIdError := "Campo obrigatório 'id_projeto' não encontrado"
  const InsertError := "Falha ao criar registro na tabela de requisições"
  const InternalErrorPrefix := "Erro interno: "
  const StartedMessage := "Processamento iniciado com sucesso"
  const InProgressStatus := "Em processamento"

  /** `dados.get(key)`. */
  function Field(data: Metadata.Request, key: string): (v: Option<string>)
    ensures v.Some? <==> key in data
    ensures v.Some? ==> v.value == data[key]
  {
    if key in data then Some(data[key]) else None
  }

  /** Whether the body passes the two checks before the insert. */
  predicate Valid(body: Body)
  {
    body.Json? && body.data.Some? && body.data.value != map[] && "id_projeto" in body.data.value
  }

  /** The row the route asks the database to insert; the survey date is
      read from `data_levantamento` and stored as `data_voo`. */
  function RequestRow(data: Metadata.Request): Ledger.Row
    requires "id_projeto" in data
  {
    Ledger.NewRecord(data["id_projeto"], Field(data, "cliente"), Field(data, "fazenda"), Field(data, "talhao"),
                     Field(data, "data_levantamento"), None)
  }

  /** `processar_ortomosaico`. */
  function Accept(body: Body, insert: Ledger.InsertOutcome): (a: Answer)
    ensures body.Unreadable? ==> a == Answer(500, map["erro" := InternalErrorPrefix + body.message], None, None)
    ensures body.Json? && (body.data.None? || body.data.value == map[]) ==> a == Answer(400, map["erro" := NoDataError], None, None)
    ensures (body.Json? && body.data.Some? && body.data.value != map[] && "id_projeto" !in body.data.value)
              ==> a == Answer(400, map["erro" := MissingIdError], None, None)
    ensures a.inserted.Some? <==> Valid(body)
    ensures Valid(body) ==> a.inserted == Some(RequestRow(body.data.value))
    ensures a.code == 202 <==> a.job.Some?
    ensures a.job.Some? <==> Valid(body) && Truthy(Ledger.CreateRecord(insert))
    ensures (Valid(body) && !Truthy(Ledger.CreateRecord(insert)))
              ==> a == Answer(500, map["erro" := InsertError], Some(RequestRow(body.data.value)), None)
    ensures a.job.Some? ==> a.job == Some(Job(body.data.value["id_projeto"], Ledger.CreateRecord(insert).value, body.data.value))
    ensures a.code in {202, 400, 500}
  {
    match body
    case Unreadable(m) => Answer(500, map["erro" := InternalErrorPrefix + m], None, None)
    case Json(data) =>
      if data.None? || data.value == map[] then Answer(400, map["erro" := NoDataError], None, None)
      else if "id_projeto" !in data.value then Answer(400, map["erro" := MissingIdError], None, None)
      else
        var request := data.value;
        var row := RequestRow(request);
        var recordId := Ledger.CreateRecord(insert);
        if !Truthy(recordId) then Answer(500, map["erro" := InsertError], Some(row), None)
        else
          var projectId := request["id_projeto"];
          Answer(202, map["mensagem" := StartedMessage, "id_registro" := recordId.value,
                          "id_projeto" := projectId, "status" := InProgressStatus],
                 Some(row), Some(Job(projectId, recordId.value, request)))
  }

  /** A request without a project id is refused before anything is
      written, with the missing-field message. */
  lemma MissingIdRefused(data: Metadata.Request, insert: Ledger.InsertOutcome)
    requires data != map[] && "id_projeto" !in data
    ensures Accept(Json(Some(data)), insert) == Answer(400, map["erro" := MissingIdError], None, None)
  {
  }

  /** An accepted request answers 202 with the new record's id and the
      project id, inserts the record in the initial status, and starts the
      driver on the original request. */
  lemma AcceptedRequest(data: Metadata.Request, recordId: string)
    requires "id_projeto" in data && recordId != ""
    ensures var a := Accept(Json(Some(data)), Ledger.InsertAnswered(Some(recordId)));
            && a.code == 202
            && a.body["id_registro"] == recordId && a.body["id_projeto"] == data["id_projeto"]
            && a.body["status"] == InProgressStatus
            && a.inserted.Some? && a.inserted.value["status_orto"] == Ledger.Text(Ledger.InitialStatus)
            && a.job == Some(Job(data["id_projeto"], recordId, data))
  {
  }

  /** An insert that raises, or whose answer yields no id or an empty one,
      is reported as a 500 and no job starts. */
  lemma FailedInsertRefused(data: Metadata.Request, insert: Ledger.InsertOutcome)
    requires "id_projeto" in data
    requires !Truthy(Ledger.CreateRecord(insert))
    ensures Accept(Json(Some(data)), insert) == Answer(500, map["erro" := InsertError], Some(RequestRow(data)), None)
  {
  }

  /** The survey date is stored in the record under `data_voo`, while the
      job keeps the request, where it is still under `data_levantamento`. */
  lemma SurveyDateRenamed(data: Metadata.Request, recordId: string)
    requires "id_projeto" in data && "data_levantamento" in data && "data_voo" !in data && recordId != ""
    ensures var a := Accept(Json(Some(data)), Ledger.InsertAnswered(Some(recordId)));
            && a.inserted.value["data_voo"] == Ledger.Text(data["data_levantamento"])
            && "data_voo" !in a.job.value.request
  {
  }
}
