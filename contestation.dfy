/** The page that shows a petition's generated contestations: the newest one rendered from
    its markdown, a list of versions when there are several, the two download buttons, and
    the chat panel, either beside the text or floating over it. */
module ContestationDetail {
  import opened Options
  import opened Text
  import opened Decimal
  import opened Endpoints
  import opened Markdown
  import opened MiniChat

  datatype Contestation = Contestation(
    id: int,
    petitionId: int,
    contentText: Option<String>,
    reportText: Option<String>,
    docxPath: Option<String>,
    reportDocxPath: Option<String>,
    modelUsed: Option<String>,
    createdAt: String)

  datatype PetitionDetail = PetitionDetail(
    id: int, title: String, status: String, contestations: seq<Contestation>)

  const NotFound: String := "Petição não encontrada"
  const DownloadFailed: String := "Erro ao baixar o arquivo DOCX"
  const ReportUnavailable: String := "Relatório ainda não disponível"

  /** `petition?.contestations?.[0]`: the newest contestation, the server listing newest first. */
  function Latest(petition: Option<PetitionDetail>): (c: Option<Contestation>)
    ensures c.Some? <==> petition.Some? && petition.value.contestations != []
    ensures c.Some? ==> c.value == petition.value.contestations[0]
  {
    if petition.Some? && petition.value.contestations != [] then Some(petition.value.contestations[0])
    else None
  }

  /** The badges of the version list: the i-th contestation of `count` is `v{count - i}`. */
  function VersionLabels(count: nat): (labels: seq<String>)
    ensures |labels| == count
    ensures forall i | 0 <= i < count :: labels[i] == "v" + Show(count - i)
  {
    seq(count, i requires 0 <= i < count => "v" + Show(count - i))
  }

  /** Each label names a version number from `count` down to 1, so the newest
      contestation carries the highest number and the oldest is `v1`. */
  lemma VersionLabelNumber(count: nat, i: nat)
    requires i < count
    ensures VersionLabels(count)[i][0] == 'v'
    ensures Parse(VersionLabels(count)[i][1..]) == Some(count - i)
    ensures 1 <= count - i <= count
  {
    var badge := VersionLabels(count)[i];
    assert badge[1..] == Show(count - i);
    ParseShow(count - i);
  }

  /** No two versions carry the same label. */
  lemma VersionLabelsDistinct(count: nat, i: nat, j: nat)
    requires i < count && j < count && i != j
    ensures VersionLabels(count)[i] != VersionLabels(count)[j]
  {
    VersionLabelNumber(count, i);
    VersionLabelNumber(count, j);
  }

  datatype Button = Button(caption: String, enabled: bool)

  /** A download button: disabled, and labelled as busy, while its download runs. */
  function DownloadButton(busy: bool, idle: String): (b: Button)
    ensures b.enabled <==> !busy
    ensures b.caption == (if busy then "Baixando..." else idle)
  {
    Button(if busy then "Baixando..." else idle, !busy)
  }

  datatype Body =
    | NoContestations
    | Detail(versions: seq<String>, split: bool, text: Rendered, download: Button, report: Option<Button>)

  datatype Screen =
    | Spinner
    | ErrorScreen(message: String)
    | Overview(title: Option<String>, count: Option<nat>, toggle: bool, body: Body)

  /** What the page shows for a given state. */
  function View(
    loading: bool, error: String, petition: Option<PetitionDetail>, splitView: bool,
    downloading: bool, downloadingReport: bool): (v: Screen)
    ensures loading ==> v == Spinner
    ensures !loading && error != [] ==> v == ErrorScreen(error)
    ensures v.Overview? <==> !loading && error == []
    ensures v.Overview? ==> (v.toggle <==> Latest(petition).Some?)
    ensures v.Overview? ==> (v.body.Detail? <==> Latest(petition).Some?)
    ensures v.Overview? && v.body.Detail? ==>
      var latest := Latest(petition).value;
      var count := |petition.value.contestations|;
      && v.title == Some(petition.value.title)
      && (v.body.versions != [] <==> count > 1)
      && (count > 1 ==> v.body.versions == VersionLabels(count))
      && v.body.split == splitView
      && v.body.text == Render(latest.contentText)
      && v.body.download.enabled == !downloading
      && (v.body.report.Some? <==> Truthy(latest.reportDocxPath))
      && (v.body.report.Some? ==> v.body.report.value.enabled == !downloadingReport)
  {
    if loading then Spinner
    else if error != [] then ErrorScreen(error)
    else
      var title := if petition.Some? then Some(petition.value.title) else None;
      var count := if petition.Some? then Some(|petition.value.contestations| as nat) else None;
      var latest := Latest(petition);
      if latest.None? then Overview(title, count, false, NoContestations)
      else
        var n := |petition.value.contestations|;
        var versions := if n > 1 then VersionLabels(n) else [];
        var report :=
          if Truthy(latest.value.reportDocxPath)
          then Some(DownloadButton(downloadingReport, "Download Relatório"))
          else None;
        Overview(title, count, true,
          Detail(versions, splitView, Render(latest.value.contentText),
                 DownloadButton(downloading, "Download Contestação"), report))
  }

  class ContestationPage {
    var routeId: int
    const store: ChatStore
    var petition: Option<PetitionDetail>
    var loading: bool
    var error: String
    var downloading: bool
    var downloadingReport: bool
    var splitView: bool

    /** The page as first rendered, before the load effect has run. */
    constructor(routeId: int)
      ensures this.routeId == routeId && fresh(store)
      ensures store.messages == [] && !store.initialized
      ensures petition == None && loading && error == []
      ensures !downloading && !downloadingReport && splitView
    {
      this.routeId := routeId;
      store := new ChatStore();
      petition := None;
      loading := true;
      error := [];
      downloading := false;
      downloadingReport := false;
      splitView := true;
    }

    function Screen(): Screen
      reads this
    {
      View(loading, error, petition, splitView, downloading, downloadingReport)
    }

    /** The contestation and the chat are on screen. */
    predicate ShowsDetail()
      reads this
    {
      !loading && error == [] && Latest(petition).Some?
    }

    /** `load`: fetch the petition named by the route. */
    method Load() returns (request: Request)
      modifies this
      ensures request == GetPetition(routeId) && loading
      ensures routeId == old(routeId) && petition == old(petition) && error == old(error)
      ensures downloading == old(downloading) && downloadingReport == old(downloadingReport)
      ensures splitView == old(splitView)
    {
      loading := true;
      request := GetPetition(routeId);
    }

    /** The route names another petition: the page reloads, keeping its chat history. */
    method ChangeRoute(id: int) returns (request: Request)
      modifies this
      ensures routeId == id && request == GetPetition(id) && loading
      ensures petition == old(petition) && error == old(error) && splitView == old(splitView)
      ensures downloading == old(downloading) && downloadingReport == old(downloadingReport)
    {
      routeId := id;
      request := Load();
    }

    /** Mount a chat panel for the newest contestation, in the current view mode. */
    method MountChat() returns (panel: Panel)
      requires Latest(petition).Some?
      modifies store
      ensures fresh(panel) && panel.store == store
      ensures panel.contestationId == Latest(petition).value.id
      ensures panel.reportText == Latest(petition).value.reportText
      ensures panel.inline == splitView && !panel.open && panel.input == [] && !panel.loading
      ensures !old(store.initialized) && splitView ==>
        store.messages == [Opening(panel.reportText)] && store.initialized
      ensures old(store.initialized) || !splitView ==>
        store.messages == old(store.messages) && store.initialized == old(store.initialized)
    {
      var latest := Latest(petition).value;
      panel := new Panel(latest.id, latest.reportText, splitView, store);
      panel.Seed();
    }

    /** The load request ended: the petition on success, the not-found error otherwise;
        a chat panel is mounted when the contestation comes on screen. */
    method FinishLoad(response: Response<PetitionDetail>) returns (chat: Option<Panel>)
      modifies this, store
      ensures !loading && routeId == old(routeId) && splitView == old(splitView)
      ensures downloading == old(downloading) && downloadingReport == old(downloadingReport)
      ensures response.Ok? ==> petition == Some(response.data) && error == old(error)
      ensures response.Failed? ==> petition == old(petition) && error == NotFound
      ensures chat.Some? <==> ShowsDetail()
      ensures chat.Some? ==> fresh(chat.value) && chat.value.store == store && chat.value.inline == splitView
      ensures chat.None? ==> store.messages == old(store.messages) && store.initialized == old(store.initialized)
    {
      if response.Ok? {
        petition := Some(response.data);
      } else {
        error := NotFound;
      }
      loading := false;
      if error == [] && Latest(petition).Some? {
        var panel := MountChat();
        chat := Some(panel);
      } else {
        chat := None;
      }
    }

    /** A click on the contestation's download button; `None` when the button is absent
        or disabled. */
    method ClickDownload() returns (download: Option<Download>)
      modifies this
      ensures routeId == old(routeId) && petition == old(petition) && loading == old(loading)
      ensures error == old(error) && downloadingReport == old(downloadingReport) && splitView == old(splitView)
      ensures download.Some? <==> old(ShowsDetail()) && !old(downloading)
      ensures download.Some? ==>
        download.value == DownloadContestation(Latest(petition).value.id, None) && downloading
      ensures download.None? ==> downloading == old(downloading)
    {
      if !ShowsDetail() || downloading {
        return None;
      }
      var latest := Latest(petition).value;
      downloading := true;
      download := Some(DownloadContestation(latest.id, None));
    }

    /** The contestation download ended. */
    method FinishDownload(ok: bool)
      modifies this
      ensures !downloading
      ensures error == (if ok then old(error) else DownloadFailed)
      ensures routeId == old(routeId) && petition == old(petition) && loading == old(loading)
      ensures downloadingReport == old(downloadingReport) && splitView == old(splitView)
    {
      if !ok {
        error := DownloadFailed;
      }
      downloading := false;
    }

    /** A click on the report's download button, shown only when the contestation has a
        report document. */
    method ClickDownloadReport() returns (download: Option<Download>)
      modifies this
      ensures routeId == old(routeId) && petition == old(petition) && loading == old(loading)
      ensures error == old(error) && downloading == old(downloading) && splitView == old(splitView)
      ensures download.Some? <==>
        old(ShowsDetail()) && Truthy(Latest(petition).value.reportDocxPath) && !old(downloadingReport)
      ensures download.Some? ==>
        download.value == DownloadReport(Latest(petition).value.id, None) && downloadingReport
      ensures download.None? ==> downloadingReport == old(downloadingReport)
    {
      if !ShowsDetail() || !Truthy(Latest(petition).value.reportDocxPath) || downloadingReport {
        return None;
      }
      var latest := Latest(petition).value;
      downloadingReport := true;
      download := Some(DownloadReport(latest.id, None));
    }

    /** The report download ended. */
    method FinishDownloadReport(ok: bool)
      modifies this
      ensures !downloadingReport
      ensures error == (if ok then old(error) else ReportUnavailable)
      ensures routeId == old(routeId) && petition == old(petition) && loading == old(loading)
      ensures downloading == old(downloading) && splitView == old(splitView)
    {
      if !ok {
        error := ReportUnavailable;
      }
      downloadingReport := false;
    }

    /** One of the two layout buttons. Choosing the other layout mounts a new chat panel,
        so its input and `open` start afresh while the shared history stays. */
    method SetSplitView(v: bool) returns (chat: Option<Panel>)
      requires ShowsDetail()
      modifies this, store
      ensures splitView == v
      ensures routeId == old(routeId) && petition == old(petition) && loading == old(loading)
      ensures error == old(error) && downloading == old(downloading)
      ensures downloadingReport == old(downloadingReport)
      ensures chat.Some? <==> v != old(splitView)
      ensures chat.Some? ==> fresh(chat.value) && chat.value.store == store && chat.value.inline == v
      ensures old(store.initialized) || chat.None? || !v ==>
        store.messages == old(store.messages) && store.initialized == old(store.initialized)
      ensures !old(store.initialized) && chat.Some? && v ==>
        store.messages == [Opening(Latest(petition).value.reportText)] && store.initialized
    {
      if v == splitView {
        return None;
      }
      splitView := v;
      var panel := MountChat();
      chat := Some(panel);
    }
  }
}
