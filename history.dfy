/** The history page: the table of every petition sent, with its status badge, truncated
    party names, similarity score and the row actions (generate, analyse, delete), and
    silent polling while any petition is being processed. */
module History {
  import opened Options
  import opened Text
  import opened Decimal
  import opened Endpoints

  datatype Petition = Petition(
    id: int,
    title: String,
    status: String,
    createdAt: String,
    subsidyCount: int,
    contestationCount: int,
    authorName: Option<String>,
    lawyerName: Option<String>,
    similarityScore: Option<real>,
    documentAnalysis: Option<String>)

  const DefaultLimit: int := 20

  /** `truncateText`: a dash for a missing or empty text, the text itself when it fits in
      `limit` characters (20 unless given), else its first `limit` characters and `...`. */
  function TruncateText(text: Option<String>, limit: Option<int>): (r: String)
    ensures !Truthy(text) ==> r == "-"
    ensures Truthy(text) && |text.value| <= limit.GetOr(DefaultLimit) ==> r == text.value
    ensures Truthy(text) && |text.value| > limit.GetOr(DefaultLimit) ==>
      && EndsWith(r, "...")
      && StartsWith(text.value, r[..|r| - 3])
      && (limit.GetOr(DefaultLimit) >= 0 ==> |r| == limit.GetOr(DefaultLimit) + 3)
  {
    if !Truthy(text) then "-"
    else
      var n := limit.GetOr(DefaultLimit);
      if |text.value| <= n then text.value
      else
        var head := Slice(text.value, 0, n);
        assert (head + "...")[..|head|] == head;
        head + "..."
  }

  /** A name of the default width keeps at most 23 characters on screen. */
  lemma TruncatedWidth(text: Option<String>)
    ensures |TruncateText(text, None)| <= DefaultLimit + 3
  {
  }

  datatype Badge = Badge(cls: String, icon: String, caption: String)

  const Badges: map<String, Badge> := map[
    "pending" := Badge("badge-pending", "Clock", "Pendente"),
    "processing" := Badge("badge-processing", "Loader2", "Gerando..."),
    "completed" := Badge("badge-completed", "CheckCircle", "Processada"),
    "error" := Badge("badge-error", "AlertTriangle", "Erro")]

  /** `StatusBadge`: the badge of a known status, the pending badge for any other. */
  function StatusBadge(status: String): (b: Badge)
    ensures b in Badges.Values
    ensures status !in Badges ==> b == Badges["pending"]
    ensures status in Badges ==> b == Badges[status]
  {
    if status in Badges then Badges[status] else Badges["pending"]
  }

  /** The four known statuses have four different captions, so the badge tells the
      status apart; an unknown status reads as pending. */
  lemma BadgesDistinct(s: String, t: String)
    requires s in Badges && t in Badges && s != t
    ensures StatusBadge(s).caption != StatusBadge(t).caption
    ensures StatusBadge(s).cls != StatusBadge(t).cls
  {
  }

  const Red: String := "#ef4444"
  const Amber: String := "#f59e0b"
  const Green: String := "#10b981"

  datatype ScoreCell = NoScore | Scored(value: real, colour: String, background: String)

  /** The score cell: a dash without a score; otherwise red from 75 up, amber from 40 up,
      green below, each on its own translucent background. */
  function ScoreStyle(score: Option<real>): (c: ScoreCell)
    ensures c.NoScore? <==> score.None?
    ensures c.Scored? ==> c.value == score.value
    ensures c.Scored? ==> (c.colour == Red <==> score.value >= 75.0)
    ensures c.Scored? ==> (c.colour == Amber <==> 40.0 <= score.value < 75.0)
    ensures c.Scored? ==> (c.colour == Green <==> score.value < 40.0)
    ensures c.Scored? && c.colour == Red ==> c.background == "rgba(239, 68, 68, 0.15)"
    ensures c.Scored? && c.colour == Amber ==> c.background == "rgba(245, 158, 11, 0.15)"
    ensures c.Scored? && c.colour == Green ==> c.background == "rgba(16, 185, 129, 0.15)"
  {
    match score
    case None => NoScore
    case Some(v) =>
      if v >= 75.0 then Scored(v, Red, "rgba(239, 68, 68, 0.15)")
      else if v >= 40.0 then Scored(v, Amber, "rgba(245, 158, 11, 0.15)")
      else Scored(v, Green, "rgba(16, 185, 129, 0.15)")
  }

  /** A higher score never gets a milder colour. */
  lemma ScoreStyleMonotone(x: real, y: real)
    requires x <= y
    ensures Severity(ScoreStyle(Some(x)).colour) <= Severity(ScoreStyle(Some(y)).colour)
  {
  }

  function Severity(colour: String): nat {
    if colour == Red then 2 else if colour == Amber then 1 else 0
  }

  /** `petitions.some(p => p.status === 'processing')`. */
  function HasProcessing(petitions: seq<Petition>): (b: bool)
    ensures b <==> exists i | 0 <= i < |petitions| :: petitions[i].status == "processing"
  {
    if petitions == [] then false
    else
      assert forall i | 1 <= i < |petitions| :: petitions[i] == petitions[1..][i - 1];
      petitions[0].status == "processing" || HasProcessing(petitions[1..])
  }

  /** The optimistic update after a generation starts: the row with that id turns
      processing; every other row, and the order, stay as they were. */
  function MarkProcessing(petitions: seq<Petition>, id: int): (r: seq<Petition>)
    ensures |r| == |petitions|
    ensures forall i | 0 <= i < |r| :: r[i].id == petitions[i].id
    ensures forall i | 0 <= i < |r| && petitions[i].id != id :: r[i] == petitions[i]
    ensures forall i | 0 <= i < |r| && petitions[i].id == id ::
      r[i].status == "processing" && r[i] == petitions[i].(status := "processing")
  {
    seq(|petitions|, i requires 0 <= i < |petitions| =>
      if petitions[i].id == id then petitions[i].(status := "processing") else petitions[i])
  }

  /** Starting a generation for a listed petition starts the polling. */
  lemma GenerateStartsPolling(petitions: seq<Petition>, id: int, k: nat)
    requires k < |petitions| && petitions[k].id == id
    ensures HasProcessing(MarkProcessing(petitions, id))
  {
    assert MarkProcessing(petitions, id)[k].status == "processing";
  }

  /** Marking the same row twice changes nothing more. */
  lemma MarkProcessingIdempotent(petitions: seq<Petition>, id: int)
    ensures MarkProcessing(MarkProcessing(petitions, id), id) == MarkProcessing(petitions, id)
  {
  }

  /** `prev.filter(p => p.id !== id)`. */
  function RemoveId(petitions: seq<Petition>, id: int): (r: seq<Petition>)
    ensures |r| <= |petitions|
  {
    if petitions == [] then []
    else (if petitions[0].id != id then [petitions[0]] else []) + RemoveId(petitions[1..], id)
  }

  /** Exactly the rows with other ids remain. */
  lemma {:induction false} RemoveIdMembers(petitions: seq<Petition>, id: int)
    ensures forall p :: p in RemoveId(petitions, id) <==> p in petitions && p.id != id
  {
    if petitions != [] {
      RemoveIdMembers(petitions[1..], id);
      assert petitions == [petitions[0]] + petitions[1..];
    }
  }

  /** The filter works row by row and keeps the order: it distributes over concatenation. */
  lemma {:induction false} RemoveIdAppend(a: seq<Petition>, b: seq<Petition>, id: int)
    ensures RemoveId(a + b, id) == RemoveId(a, id) + RemoveId(b, id)
  {
    if a == [] {
      assert a + b == b;
    } else {
      var ab := a + b;
      var head := if a[0].id != id then [a[0]] else [];
      assert ab[0] == a[0] && ab[1..] == a[1..] + b;
      RemoveIdAppend(a[1..], b, id);
      assert RemoveId(ab, id) == head + (RemoveId(a[1..], id) + RemoveId(b, id));
      assert RemoveId(a, id) == head + RemoveId(a[1..], id);
    }
  }

  /** Rows with other ids are all kept. */
  lemma {:induction false} RemoveIdKeeps(petitions: seq<Petition>, id: int)
    requires forall i | 0 <= i < |petitions| :: petitions[i].id != id
    ensures RemoveId(petitions, id) == petitions
  {
    if petitions != [] {
      RemoveIdKeeps(petitions[1..], id);
    }
  }

  /** Deleting twice is deleting once. */
  lemma RemoveIdIdempotent(petitions: seq<Petition>, id: int)
    ensures RemoveId(RemoveId(petitions, id), id) == RemoveId(petitions, id)
  {
    var r := RemoveId(petitions, id);
    RemoveIdMembers(petitions, id);
    forall i | 0 <= i < |r| ensures r[i].id != id {
      assert r[i] in r;
    }
    RemoveIdKeeps(r, id);
  }

  datatype Actions = Actions(generate: Option<bool>, analyse: Option<String>, delete: bool)

  /** The action buttons of a row. `generate` is present for a pending or failed petition
      and holds whether it is enabled; `analyse` is present once a contestation exists and
      holds the page it opens; delete is always there. */
  function RowActions(p: Petition, generatingId: Option<int>): (a: Actions)
    ensures a.generate.Some? <==> p.status == "pending" || p.status == "error"
    ensures a.generate.Some? ==> (a.generate.value <==> generatingId != Some(p.id))
    ensures a.analyse.Some? <==> p.contestationCount > 0
    ensures a.analyse.Some? ==> Embeds(a.analyse.value, "/contestations/", p.id, "")
    ensures a.delete
  {
    Actions(
      if p.status == "pending" || p.status == "error" then Some(generatingId != Some(p.id)) else None,
      if p.contestationCount > 0 then Some(IdPath("/contestations/", p.id, "")) else None,
      true)
  }

  datatype Row = Row(
    title: String, badge: Badge, author: String, lawyer: String, score: ScoreCell, actions: Actions)

  /** One table row: the title as it is, the status badge, both party names cut to the
      default width, the score cell and the row actions. */
  function RowOf(p: Petition, generatingId: Option<int>): (r: Row)
    ensures r.title == p.title && r.badge == StatusBadge(p.status)
    ensures r.author == TruncateText(p.authorName, None) && |r.author| <= DefaultLimit + 3
    ensures r.lawyer == TruncateText(p.lawyerName, None) && |r.lawyer| <= DefaultLimit + 3
    ensures r.score == ScoreStyle(p.similarityScore)
    ensures r.actions == RowActions(p, generatingId) && r.actions.delete
  {
    Row(p.title, StatusBadge(p.status), TruncateText(p.authorName, None),
        TruncateText(p.lawyerName, None), ScoreStyle(p.similarityScore), RowActions(p, generatingId))
  }

  datatype Screen = Spinner | NoPetitions | Table(rows: seq<Row>)

  /** What the page shows below the optional error banner. */
  function View(loading: bool, petitions: seq<Petition>, generatingId: Option<int>): (v: Screen)
    ensures loading <==> v == Spinner
    ensures v == NoPetitions <==> !loading && petitions == []
    ensures v.Table? ==> |v.rows| == |petitions|
    ensures v.Table? ==> forall i | 0 <= i < |petitions| :: v.rows[i] == RowOf(petitions[i], generatingId)
  {
    if loading then Spinner
    else if petitions == [] then NoPetitions
    else Table(seq(|petitions|, i requires 0 <= i < |petitions| => RowOf(petitions[i], generatingId)))
  }

  const LoadFailed: String := "Erro ao carregar histórico"
  const GenerateFailed: String := "Erro ao iniciar geração"
  const DeleteFailed: String := "Erro ao excluir petição"

  class HistoryPage {
    var petitions: seq<Petition>
    var loading: bool
    var generatingId: Option<int>
    var error: String

    /** The page as first rendered, before the load effect has run. */
    constructor()
      ensures petitions == [] && loading && generatingId == None && error == []
    {
      petitions := [];
      loading := true;
      generatingId := None;
      error := [];
    }

    /** The polling timer runs exactly while some row is processing. */
    function Polling(): (b: bool)
      reads this
      ensures b <==> exists i | 0 <= i < |petitions| :: petitions[i].status == "processing"
    {
      HasProcessing(petitions)
    }

    /** `load`, on mount and from the refresh button. */
    method Load() returns (request: Request)
      modifies this
      ensures request == ListPetitions(None, None) && loading
      ensures petitions == old(petitions) && generatingId == old(generatingId) && error == old(error)
    {
      loading := true;
      request := ListPetitions(None, None);
    }

    /** The listing requested by `load` ended. An earlier error stays on screen. */
    method FinishLoad(response: Response<seq<Petition>>)
      modifies this
      ensures !loading && generatingId == old(generatingId)
      ensures response.Ok? ==> petitions == response.data && error == old(error)
      ensures response.Failed? ==> petitions == old(petitions) && error == LoadFailed
    {
      if response.Ok? {
        petitions := response.data;
      } else {
        error := LoadFailed;
      }
      loading := false;
    }

    /** A tick of the polling timer: the same listing, without the spinner. */
    method SilentLoad() returns (request: Request)
      ensures request == ListPetitions(None, None)
    {
      request := ListPetitions(None, None);
    }

    /** The silent listing ended; a failure is ignored. */
    method FinishSilentLoad(response: Response<seq<Petition>>)
      modifies this
      ensures loading == old(loading) && generatingId == old(generatingId) && error == old(error)
      ensures petitions == (if response.Ok? then response.data else old(petitions))
    {
      if response.Ok? {
        petitions := response.data;
      }
    }

    /** `handleGenerate` up to the request. */
    method BeginGenerate(id: int) returns (request: Request)
      modifies this
      ensures generatingId == Some(id) && request == Generate(id)
      ensures petitions == old(petitions) && loading == old(loading) && error == old(error)
    {
      generatingId := Some(id);
      request := Generate(id);
    }

    /** `handleGenerate` after the request. The single `generatingId` is cleared whichever
        row it names by then. */
    method FinishGenerate(id: int, response: Response<()>)
      modifies this
      ensures generatingId == None && loading == old(loading)
      ensures response.Ok? ==> petitions == MarkProcessing(old(petitions), id) && error == old(error)
      ensures response.Failed? ==>
        petitions == old(petitions) && error == ErrorText(response, GenerateFailed)
    {
      if response.Ok? {
        petitions := MarkProcessing(petitions, id);
      } else {
        error := ErrorText(response, GenerateFailed);
      }
      generatingId := None;
    }

    /** `handleDelete` up to the request: nothing is sent unless the user confirms. */
    method RequestDelete(id: int, confirmed: bool) returns (request: Option<Request>)
      ensures request == (if confirmed then Some(DeletePetition(id)) else None)
    {
      request := if confirmed then Some(DeletePetition(id)) else None;
    }

    /** `handleDelete` after the request. */
    method FinishDelete(id: int, ok: bool)
      modifies this
      ensures loading == old(loading) && generatingId == old(generatingId)
      ensures ok ==> petitions == RemoveId(old(petitions), id) && error == old(error)
      ensures !ok ==> petitions == old(petitions) && error == DeleteFailed
    {
      if ok {
        petitions := RemoveId(petitions, id);
      } else {
        error := DeleteFailed;
      }
    }
  }
}
