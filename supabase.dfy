/**
 * `send_to_supabase`: one record inserted into the `investing_gold` table
 * through the database's REST endpoint.
 *
 * The POST itself is an input, `post`, giving what the network and the
 * server made of the request; logging is not modelled. Whatever happens,
 * the sender returns normally: a missing field or a failed POST ends in the
 * `except` branch, which only logs.
 */
module Supabase {
  import opened Options

  /** `SUPABASE_URL` and `SUPABASE_KEY`, read from the environment at start-up. */
  datatype Config = Config(url: string, key: string)

  const TablePath := "/rest/v1/investing_gold"
  const TimeoutSeconds := 10

  /** What `requests.post` is handed. */
  datatype Request = Request(
    url: string,
    headers: map<string, string>,
    payload: map<string, string>,
    timeout: int)

  /** What `requests.post` did: a response with its status code, or an exception. */
  datatype PostResult = Answered(status: int) | Raised

  /** How the attempt ended, as the sender's log lines tell it. */
  datatype Delivery =
    | Stored(status: int)    // the server accepted the row
    | Refused(status: int)   // any other status; the body is logged
    | Errored                // an exception, caught and logged

  /** One call of the sender: the request it issued, if it got that far, and how it ended. */
  datatype SendReport = SendReport(request: Option<Request>, delivery: Delivery)

  /** `status_code in [200, 201]`: OK and Created, two of the 2xx statuses. */
  function IsSuccessStatus(status: int): (b: bool)
    ensures status in {200, 201} ==> b
    ensures b ==> 200 <= status < 300 && status != 202 && status != 204
  {
    status == 200 || status == 201
  }

  /** The three headers of every insert: the key, JSON, and no row echoed back. */
  function Headers(key: string): (h: map<string, string>)
    ensures h.Keys == {"apikey", "Content-Type", "Prefer"}
    ensures h["apikey"] == key
    ensures h["Content-Type"] == "application/json" && h["Prefer"] == "return=minimal"
  {
    map["apikey" := key, "Content-Type" := "application/json", "Prefer" := "return=minimal"]
  }

  /**
   * The body of the insert: the record's `timestamp` and `volume` and nothing
   * else. A record lacking either raises `KeyError`, here `None`.
   */
  function Payload(data: map<string, string>): (r: Option<map<string, string>>)
    ensures r.Some? <==> "timestamp" in data && "volume" in data
    ensures r.Some? ==> r.value.Keys == {"timestamp", "volume"}
    ensures r.Some? ==> forall field :: field in r.value ==> field in data && r.value[field] == data[field]
  {
    if "timestamp" in data && "volume" in data then
      Some(map["timestamp" := data["timestamp"], "volume" := data["volume"]])
    else
      None
  }

  /** The POST of `payload` to the table, with a ten-second timeout. */
  function InsertRequest(cfg: Config, payload: map<string, string>): (req: Request)
    ensures req.url == cfg.url + "/rest/v1/investing_gold"
    ensures req.headers == Headers(cfg.key) && req.payload == payload
    ensures req.timeout == 10
  {
    Request(cfg.url + TablePath, Headers(cfg.key), payload, TimeoutSeconds)
  }

  /** Only 200 and 201 count as stored; every other status is reported as refused. */
  function Classify(status: int): (d: Delivery)
    ensures d.Stored? || d.Refused?
    ensures d.status == status
    ensures d.Stored? <==> status in {200, 201}
  {
    if IsSuccessStatus(status) then Stored(status) else Refused(status)
  }

  /** The sender, which never raises: every path returns a report. */
  function SendToSupabase(cfg: Config, data: map<string, string>, post: Request -> PostResult): (r: SendReport)
    ensures r.request.Some? <==> Payload(data).Some?
    ensures r.request.Some? ==> r.request.value == InsertRequest(cfg, Payload(data).value)
    ensures r.delivery.Errored? <==> r.request == None || post(r.request.value) == Raised
    ensures r.delivery.Stored? <==>
      r.request.Some? && post(r.request.value).Answered? && IsSuccessStatus(post(r.request.value).status)
  {
    match Payload(data)
    case None => SendReport(None, Errored)
    case Some(payload) =>
      var req := InsertRequest(cfg, payload);
      match post(req)
      case Raised => SendReport(Some(req), Errored)
      case Answered(status) => SendReport(Some(req), Classify(status))
  }

  /** What is sent for a record holding both fields is exactly those two fields. */
  lemma PayloadOfRecord(data: map<string, string>)
    requires data.Keys == {"timestamp", "volume"}
    ensures Payload(data) == Some(data)
  {
    var p := Payload(data).value;
    assert p.Keys == data.Keys;
    assert forall field | field in p :: p[field] == data[field];
    assert p == data;
  }

  /** A server answer is never an error, and which answers are stored depends on the status alone. */
  lemma AnswerDecidesDelivery(cfg: Config, data: map<string, string>, post: Request -> PostResult)
    requires Payload(data).Some?
    requires post(InsertRequest(cfg, Payload(data).value)).Answered?
    ensures SendToSupabase(cfg, data, post).delivery
         == Classify(post(InsertRequest(cfg, Payload(data).value)).status)
  {
  }
}
