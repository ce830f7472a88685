/** The completion notification of handlers.py (`enviar_webhook`): the JSON
    payload and the rule that turns the receiver's answer into a flag. The
    clock, the database lookup and the HTTP call are outcomes supplied by
    the caller. */
module Webhook {

  import opened Common
  import Config

  type Payload = map<string, string>

  const SuccessStatus := "sucesso"
  const ErrorStatus := "erro"

  /** The mosaic URL the payload carries: the given one when truthy; for a
      success notification without one, the URL read back from the record
      (`stored`, `None` when the lookup raises or finds nothing). */
  function EffectiveUrl(status: string, url: Option<string>, stored: Option<string>): (u: Option<string>)
    ensures Truthy(url) ==> u == url
    ensures status != SuccessStatus ==> u == url
    ensures status == SuccessStatus && !Truthy(url) && Truthy(stored) ==> u == stored
    ensures status == SuccessStatus && !Truthy(url) && !Truthy(stored) ==> u == url
  {
    if status == SuccessStatus && !Truthy(url) && Truthy(stored) then stored else url
  }

  /** The payload: project id, status and timestamp always; the mosaic URL
      and the message only when they are truthy. */
  function BuildPayload(projectId: string, status: string, url: Option<string>, message: Option<string>,
                        timestamp: string, stored: Option<string>): (p: Payload)
    ensures "id_projeto" in p && p["id_projeto"] == projectId
    ensures "status" in p && p["status"] == status
    ensures "timestamp" in p && p["timestamp"] == timestamp
    ensures "url_ortomosaico" in p <==> Truthy(EffectiveUrl(status, url, stored))
    ensures "url_ortomosaico" in p ==> p["url_ortomosaico"] == EffectiveUrl(status, url, stored).value
    ensures "mensagem" in p <==> Truthy(message)
    ensures "mensagem" in p ==> p["mensagem"] == message.value
    ensures p.Keys <= {"id_projeto", "status", "timestamp", "url_ortomosaico", "mensagem"}
  {
    var base := map["id_projeto" := projectId, "status" := status, "timestamp" := timestamp];
    var u := EffectiveUrl(status, url, stored);
    var withUrl := if Truthy(u) then base["url_ortomosaico" := u.value] else base;
    if Truthy(message) then withUrl["mensagem" := message.value] else withUrl
  }

  /** What `requests.post` does. */
  datatype PostOutcome = PostRaised | Responded(code: int)

  /** `response.status_code >= 200 and response.status_code < 300`. */
  predicate Accepted(post: PostOutcome)
  {
    post.Responded? && 200 <= post.code < 300
  }

  /** `enviar_webhook`: the payload posted (`None` when nothing was sent)
      and the returned flag. */
  function Send(c: Config.Config, projectId: string, status: string, url: Option<string>,
                message: Option<string>, timestamp: string, stored: Option<string>,
                post: PostOutcome): (r: (Option<Payload>, bool))
    ensures !Truthy(c.webhookUrl) ==> r == (None, false)
    ensures Truthy(c.webhookUrl) ==> r.0 == Some(BuildPayload(projectId, status, url, message, timestamp, stored))
    ensures r.1 <==> Truthy(c.webhookUrl) && Accepted(post)
  {
    if !Truthy(c.webhookUrl) then (None, false)
    else (Some(BuildPayload(projectId, status, url, message, timestamp, stored)), Accepted(post))
  }

  /** An error notification never carries a mosaic URL and always carries
      its non-empty message; the database is not consulted. */
  lemma ErrorPayloadShape(projectId: string, message: string, timestamp: string, stored: Option<string>)
    requires message != ""
    ensures "url_ortomosaico" !in BuildPayload(projectId, ErrorStatus, None, Some(message), timestamp, stored)
    ensures BuildPayload(projectId, ErrorStatus, None, Some(message), timestamp, stored)["mensagem"] == message
    ensures BuildPayload(projectId, ErrorStatus, None, Some(message), timestamp, stored)
              == BuildPayload(projectId, ErrorStatus, None, Some(message), timestamp, None)
  {
  }

  /** A success notification with a URL sends that URL and no message,
      whatever the record holds. */
  lemma SuccessPayloadShape(projectId: string, url: string, timestamp: string, stored: Option<string>)
    requires url != ""
    ensures BuildPayload(projectId, SuccessStatus, Some(url), None, timestamp, stored)
              == map["id_projeto" := projectId, "status" := SuccessStatus, "timestamp" := timestamp,
                     "url_ortomosaico" := url]
  {
  }

  /** Only 2xx answers count as delivered: a redirect, a client error and
      a server error all report failure. */
  lemma AcceptedRange()
    ensures Accepted(Responded(200)) && Accepted(Responded(299))
    ensures !Accepted(Responded(199)) && !Accepted(Responded(300)) && !Accepted(Responded(500))
    ensures !Accepted(PostRaised)
  {
  }
}
