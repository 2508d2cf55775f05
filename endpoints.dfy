/** The request descriptors of the API layer: for each call, the HTTP method, the path
    (with ids embedded in decimal), the query parameters with their defaults, the body
    (a JSON value or a multipart form) and whether the response is read as a blob.
    The HTTP client that sends them is not part of this model. */
module Endpoints {
  import opened Options
  import opened Text
  import Decimal

  // ---------------------------------------------------------------------------
  // Values exchanged with the server

  datatype Role = User | Assistant

  /** One entry of a chat history: `{ role, content }`. */
  datatype ChatMessage = ChatMessage(role: Role, content: String)

  /** A file chosen in the browser: its name, MIME type and size in bytes. */
  datatype File = File(name: String, mime: String, size: nat)

  datatype Json =
    | JNumber(n: int)
    | JString(s: String)
    | JArray(items: seq<Json>)
    | JObject(members: seq<Member>)

  datatype Member = Member(key: String, value: Json)

  datatype FormValue = TextField(text: String) | FileField(file: File)

  /** A `FormData` entry; entries keep the order of the `append` calls. */
  datatype FormEntry = FormEntry(name: String, value: FormValue)

  datatype Method = Get | Post | Delete

  datatype Body = NoBody | JsonBody(json: Json) | Multipart(form: seq<FormEntry>)

  datatype Request = Request(
    verb: Method,
    path: String,
    query: seq<(String, int)>,
    body: Body,
    contentType: Option<String>,
    blob: bool)

  /** A download: the request, and the name the saved file gets. */
  datatype Download = Download(request: Request, filename: String)

  /** How a call ends: with the response data, or with an error whose response body
      may carry a `detail` field. */
  datatype Response<T> = Ok(data: T) | Failed(detail: Option<String>)

  /** `err.response?.data?.detail || fallback`. */
  function ErrorText<T>(r: Response<T>, fallback: String): (message: String)
    requires r.Failed?
    ensures Truthy(r.detail) ==> message == r.detail.value
    ensures !Truthy(r.detail) ==> message == fallback
  {
    OrElse(r.detail, fallback)
  }

  // ---------------------------------------------------------------------------
  // Helpers shared by the builders

  function Plain(verb: Method, path: String): Request {
    Request(verb, path, [], NoBody, None, false)
  }

  function WithJson(verb: Method, path: String, json: Json): Request {
    Request(verb, path, [], JsonBody(json), None, false)
  }

  /** `{ params: { skip, limit } }` with the defaults `skip = 0`, `limit = 20`. */
  function Page(skip: Option<int>, limit: Option<int>): (query: seq<(String, int)>)
    ensures |query| == 2 && query[0].0 == "skip" && query[1].0 == "limit"
    ensures query[0].1 == (if skip.Some? then skip.value else 0)
    ensures query[1].1 == (if limit.Some? then limit.value else 20)
  {
    [("skip", skip.GetOr(0)), ("limit", limit.GetOr(20))]
  }

  /** `path` is `prefix`, then the decimal text of `id`, then `suffix`. */
  ghost predicate Embeds(path: String, prefix: String, id: int, suffix: String) {
    && |prefix| + |suffix| <= |path|
    && path[..|prefix|] == prefix
    && path[|path| - |suffix|..] == suffix
    && path[|prefix|..|path| - |suffix|] == Decimal.Show(id)
  }

  function IdPath(prefix: String, id: int, suffix: String): (path: String)
    ensures Embeds(path, prefix, id, suffix)
  {
    var path := prefix + Decimal.Show(id) + suffix;
    assert path[|prefix|..|path| - |suffix|] == Decimal.Show(id);
    path
  }

  /** The server reads the id back from the segment between prefix and suffix. */
  lemma EmbedsParses(path: String, prefix: String, id: int, suffix: String)
    requires Embeds(path, prefix, id, suffix)
    ensures Decimal.Parse(path[|prefix|..|path| - |suffix|]) == Some(id)
  {
    Decimal.ParseShow(id);
  }

  /** A path embeds one id only, so paths built for different ids differ. */
  lemma EmbedsOne(path: String, prefix: String, suffix: String, a: int, b: int)
    requires Embeds(path, prefix, a, suffix) && Embeds(path, prefix, b, suffix)
    ensures a == b
  {
    Decimal.ShowInjective(a, b);
  }

  lemma IdPathInjective(prefix: String, suffix: String, a: int, b: int)
    requires IdPath(prefix, a, suffix) == IdPath(prefix, b, suffix)
    ensures a == b
  {
    EmbedsOne(IdPath(prefix, a, suffix), prefix, suffix, a, b);
  }

  // ---------------------------------------------------------------------------
  // authApi

  /** The body the server reads four text fields from. */
  ghost predicate CarriesFields(r: Request, keys: seq<String>, values: seq<String>) {
    && r.body.JsonBody? && r.body.json.JObject? && |keys| == |values|
    && forall i | 0 <= i < |keys| :: Lookup(r.body.json.members, keys[i]) == Some(JString(values[i]))
  }

  function Fields(keys: seq<String>, values: seq<String>): (members: seq<Member>)
    requires |keys| == |values|
    ensures |members| == |keys|
    ensures forall i | 0 <= i < |keys| :: members[i] == Member(keys[i], JString(values[i]))
  {
    seq(|keys|, i requires 0 <= i < |keys| => Member(keys[i], JString(values[i])))
  }

  /** With distinct keys, each key finds its own value. */
  lemma {:induction false} LookupFields(keys: seq<String>, values: seq<String>, i: nat)
    requires |keys| == |values| && i < |keys|
    requires forall j | 0 <= j < i :: keys[j] != keys[i]
    ensures Lookup(Fields(keys, values), keys[i]) == Some(JString(values[i]))
  {
    var members := Fields(keys, values);
    if i > 0 {
      LookupFields(keys[1..], values[1..], i - 1);
      assert Fields(keys[1..], values[1..]) == members[1..];
    }
  }

  const RegisterKeys: seq<String> := ["company_name", "user_name", "email", "password"]
  const LoginKeys: seq<String> := ["email", "password"]

  /** `authApi.register(data)`: the form's four fields as a JSON object. */
  function Register(companyName: String, userName: String, email: String, password: String): (r: Request)
    ensures r.verb == Post && r.path == "/auth/register"
    ensures CarriesFields(r, RegisterKeys, [companyName, userName, email, password])
  {
    var values := [companyName, userName, email, password];
    forall i | 0 <= i < 4 ensures Lookup(Fields(RegisterKeys, values), RegisterKeys[i]) == Some(JString(values[i])) {
      LookupFields(RegisterKeys, values, i);
    }
    WithJson(Post, "/auth/register", JObject(Fields(RegisterKeys, values)))
  }

  /** `authApi.login(data)`. */
  function Login(email: String, password: String): (r: Request)
    ensures r.verb == Post && r.path == "/auth/login"
    ensures CarriesFields(r, LoginKeys, [email, password])
  {
    var values := [email, password];
    forall i | 0 <= i < 2 ensures Lookup(Fields(LoginKeys, values), LoginKeys[i]) == Some(JString(values[i])) {
      LookupFields(LoginKeys, values, i);
    }
    WithJson(Post, "/auth/login", JObject(Fields(LoginKeys, values)))
  }

  const Me: Request := Plain(Get, "/auth/me")

  /** The session request is a plain GET of the current user. */
  lemma MeRequest()
    ensures Me.verb == Get && Me.path == "/auth/me" && Me.query == [] && Me.body == NoBody
    ensures Me.contentType == None && !Me.blob
  {
  }

  // ---------------------------------------------------------------------------
  // petitionsApi

  function Upload(form: seq<FormEntry>): (r: Request)
    ensures r.verb == Post && r.path == "/petitions/" && r.body == Multipart(form)
    ensures r.contentType == Some("multipart/form-data")
  {
    Request(Post, "/petitions/", [], Multipart(form), Some("multipart/form-data"), false)
  }

  function ListPetitions(skip: Option<int>, limit: Option<int>): (r: Request)
    ensures r.verb == Get && r.path == "/petitions/" && r.query == Page(skip, limit)
  {
    Request(Get, "/petitions/", Page(skip, limit), NoBody, None, false)
  }

  function GetPetition(id: int): (r: Request)
    ensures r.verb == Get && r.body == NoBody && Embeds(r.path, "/petitions/", id, "")
  {
    Plain(Get, IdPath("/petitions/", id, ""))
  }

  function DeletePetition(id: int): (r: Request)
    ensures r.verb == Delete && r.body == NoBody && Embeds(r.path, "/petitions/", id, "")
  {
    Plain(Delete, IdPath("/petitions/", id, ""))
  }

  // ---------------------------------------------------------------------------
  // contestationsApi

  function Generate(petitionId: int): (r: Request)
    ensures r.verb == Post && r.body == NoBody
    ensures Embeds(r.path, "/contestations/generate/", petitionId, "")
  {
    Plain(Post, IdPath("/contestations/generate/", petitionId, ""))
  }

  function ListContestations(skip: Option<int>, limit: Option<int>): (r: Request)
    ensures r.verb == Get && r.path == "/contestations/" && r.query == Page(skip, limit)
  {
    Request(Get, "/contestations/", Page(skip, limit), NoBody, None, false)
  }

  function GetContestation(id: int): (r: Request)
    ensures r.verb == Get && Embeds(r.path, "/contestations/", id, "")
  {
    Plain(Get, IdPath("/contestations/", id, ""))
  }

  /** `download(id, filename = contestacao_<id>.docx)`: the document, read as a blob. */
  function DownloadContestation(id: int, filename: Option<String>): (d: Download)
    ensures d.request.verb == Get && d.request.blob
    ensures Embeds(d.request.path, "/contestations/", id, "/download")
    ensures filename.None? ==> Embeds(d.filename, "contestacao_", id, ".docx")
    ensures filename.Some? ==> d.filename == filename.value
  {
    var name := if filename.Some? then filename.value else IdPath("contestacao_", id, ".docx");
    Download(Request(Get, IdPath("/contestations/", id, "/download"), [], NoBody, None, true), name)
  }

  /** `downloadReport(id, filename = relatorio_estrategico_<id>.docx)`. */
  function DownloadReport(id: int, filename: Option<String>): (d: Download)
    ensures d.request.verb == Get && d.request.blob
    ensures Embeds(d.request.path, "/contestations/", id, "/download-report")
    ensures filename.None? ==> Embeds(d.filename, "relatorio_estrategico_", id, ".docx")
    ensures filename.Some? ==> d.filename == filename.value
  {
    var name := if filename.Some? then filename.value else IdPath("relatorio_estrategico_", id, ".docx");
    Download(Request(Get, IdPath("/contestations/", id, "/download-report"), [], NoBody, None, true), name)
  }

  // ---------------------------------------------------------------------------
  // dashboardApi

  const Metrics: Request := Plain(Get, "/dashboard/metrics")
  const LawyerStats: Request := Plain(Get, "/dashboard/lawyer-stats")
  const Pca: Request := Plain(Get, "/dashboard/pca")

  /** The three dashboard requests are plain GETs of three different resources. */
  lemma DashboardEndpoints()
    ensures Metrics.path == "/dashboard/metrics" && LawyerStats.path == "/dashboard/lawyer-stats"
    ensures Pca.path == "/dashboard/pca"
    ensures forall r | r in [Metrics, LawyerStats, Pca] ::
      r.verb == Get && r.query == [] && r.body == NoBody && !r.blob
    ensures Metrics.path != LawyerStats.path && LawyerStats.path != Pca.path && Metrics.path != Pca.path
  {
  }

  // ---------------------------------------------------------------------------
  // chatApi and the JSON form of a history

  function RoleName(role: Role): String {
    match role
    case User => "user"
    case Assistant => "assistant"
  }

  function MessageJson(m: ChatMessage): Json {
    JObject([Member("role", JString(RoleName(m.role))), Member("content", JString(m.content))])
  }

  function HistoryJson(history: seq<ChatMessage>): (j: Json)
    ensures j.JArray? && |j.items| == |history|
    ensures forall i | 0 <= i < |history| :: j.items[i] == MessageJson(history[i])
  {
    JArray(seq(|history|, i requires 0 <= i < |history| => MessageJson(history[i])))
  }

  /** `api.post('/chat/', { message, history })`. */
  function SendMessage(message: String, history: seq<ChatMessage>): (r: Request)
    ensures r.verb == Post && r.path == "/chat/" && r.body.JsonBody?
    ensures DecodeChat(r.body.json) == Some((message, history))
  {
    var j := JObject([Member("message", JString(message)), Member("history", HistoryJson(history))]);
    ChatRoundTrip(message, history);
    WithJson(Post, "/chat/", j)
  }

  /** `api.post('/chat/contestation', { contestation_id, message, history })`. */
  function SendContestationMessage(contestationId: int, message: String, history: seq<ChatMessage>): (r: Request)
    ensures r.verb == Post && r.path == "/chat/contestation" && r.body.JsonBody?
    ensures DecodeContestationChat(r.body.json) == Some((contestationId, message, history))
  {
    var j := JObject([
      Member("contestation_id", JNumber(contestationId)),
      Member("message", JString(message)),
      Member("history", HistoryJson(history))]);
    ContestationChatRoundTrip(contestationId, message, history);
    WithJson(Post, "/chat/contestation", j)
  }

  // ---------------------------------------------------------------------------
  // Reading a JSON body back, as the server does

  /** The value of the first member named `key`. */
  function Lookup(members: seq<Member>, key: String): (v: Option<Json>)
    ensures v.Some? <==> exists i | 0 <= i < |members| :: members[i].key == key
  {
    if members == [] then None
    else if members[0].key == key then Some(members[0].value)
    else
      var v := Lookup(members[1..], key);
      assert forall i | 1 <= i < |members| :: members[i] == members[1..][i - 1];
      v
  }

  function DecodeRole(s: String): Option<Role> {
    if s == "user" then Some(User) else if s == "assistant" then Some(Assistant) else None
  }

  function DecodeMessage(j: Json): Option<ChatMessage> {
    if !j.JObject? then None
    else
      match (Lookup(j.members, "role"), Lookup(j.members, "content"))
      case (Some(JString(r)), Some(JString(c))) =>
        (match DecodeRole(r)
         case Some(role) => Some(ChatMessage(role, c))
         case None => None)
      case _ => None
  }

  function DecodeItems(items: seq<Json>): Option<seq<ChatMessage>> {
    if items == [] then Some([])
    else
      match (DecodeMessage(items[0]), DecodeItems(items[1..]))
      case (Some(m), Some(rest)) => Some([m] + rest)
      case _ => None
  }

  function DecodeHistory(j: Json): Option<seq<ChatMessage>> {
    if j.JArray? then DecodeItems(j.items) else None
  }

  function DecodeChat(j: Json): Option<(String, seq<ChatMessage>)> {
    if !j.JObject? then None
    else
      match (Lookup(j.members, "message"), Lookup(j.members, "history"))
      case (Some(JString(m)), Some(h)) =>
        (match DecodeHistory(h)
         case Some(history) => Some((m, history))
         case None => None)
      case _ => None
  }

  function DecodeContestationChat(j: Json): Option<(int, String, seq<ChatMessage>)> {
    if !j.JObject? then None
    else
      match (Lookup(j.members, "contestation_id"), DecodeChat(j))
      case (Some(JNumber(id)), Some((m, history))) => Some((id, m, history))
      case _ => None
  }

  lemma MessageRoundTrip(m: ChatMessage)
    ensures DecodeMessage(MessageJson(m)) == Some(m)
  {
    var members := MessageJson(m).members;
    var r := RoleName(m.role);
    assert Lookup(members, "role") == Some(JString(r));
    assert members[1..] == [Member("content", JString(m.content))];
    assert Lookup(members, "content") == Some(JString(m.content));
    assert DecodeRole(r) == Some(m.role);
  }

  lemma {:induction false} ItemsRoundTrip(history: seq<ChatMessage>, items: seq<Json>)
    requires |items| == |history|
    requires forall i | 0 <= i < |history| :: items[i] == MessageJson(history[i])
    ensures DecodeItems(items) == Some(history)
  {
    if history != [] {
      MessageRoundTrip(history[0]);
      ItemsRoundTrip(history[1..], items[1..]);
      assert history == [history[0]] + history[1..];
    }
  }

  /** The history a request carries is the history it was built from. */
  lemma HistoryRoundTrip(history: seq<ChatMessage>)
    ensures DecodeHistory(HistoryJson(history)) == Some(history)
  {
    ItemsRoundTrip(history, HistoryJson(history).items);
  }

  lemma ChatRoundTrip(message: String, history: seq<ChatMessage>)
    ensures DecodeChat(JObject([Member("message", JString(message)), Member("history", HistoryJson(history))]))
      == Some((message, history))
  {
    HistoryRoundTrip(history);
    var members := [Member("message", JString(message)), Member("history", HistoryJson(history))];
    assert Lookup(members, "message") == Some(JString(message));
    assert members[1..] == [Member("history", HistoryJson(history))];
    assert Lookup(members, "history") == Some(HistoryJson(history));
  }

  lemma ContestationChatRoundTrip(contestationId: int, message: String, history: seq<ChatMessage>)
    ensures DecodeContestationChat(JObject([
      Member("contestation_id", JNumber(contestationId)),
      Member("message", JString(message)),
      Member("history", HistoryJson(history))])) == Some((contestationId, message, history))
  {
    var rest := [Member("message", JString(message)), Member("history", HistoryJson(history))];
    var members := [Member("contestation_id", JNumber(contestationId))] + rest;
    assert members[1..] == rest;
    assert Lookup(members, "contestation_id") == Some(JNumber(contestationId));
    LookupSkip(members, "message");
    LookupSkip(members, "history");
    ChatRoundTrip(message, history);
  }

  /** A member whose key differs is skipped. */
  lemma LookupSkip(members: seq<Member>, key: String)
    requires members != [] && members[0].key != key
    ensures Lookup(members, key) == Lookup(members[1..], key)
  {
  }
}
