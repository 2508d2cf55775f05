/** The dashboard: key figures, the risk distribution, the per-lawyer charts and the
    similarity map, all fed by three requests that succeed or fail together. */
module Dashboard {
  import opened Options
  import opened Text
  import opened Decimal
  import opened Endpoints

  datatype MonthCount = MonthCount(month: String, count: int)
  datatype RiskCount = RiskCount(risk: String, count: int)

  datatype Metrics = Metrics(
    totalPetitions: int,
    pending: int,
    processing: int,
    completed: int,
    error: int,
    totalContestations: int,
    monthlyPetitions: seq<MonthCount>,
    riskDistribution: seq<RiskCount>,
    averageSimilarity: real,
    ratioPetitionsLawyers: real,
    highRiskPercentage: real,
    topOffenderName: Option<String>,
    topOffenderCount: int,
    averagePages: real)

  datatype LawyerCount = LawyerCount(lawyer: String, count: int)

  datatype LawyerStats = LawyerStats(
    byLawyer: seq<LawyerCount>, monthlyByLawyer: seq<map<String, int>>, allLawyers: seq<String>)

  datatype PcaPoint = PcaPoint(id: int, title: String, lawyerName: String, x: real, y: real)

  const HighRisk: String := "#ef4444"
  const MediumRisk: String := "#f59e0b"
  const LowRisk: String := "#10b981"
  const UnknownRisk: String := "#64748b"

  /** `getRiskColor`: red, amber and green for the three risk levels, grey for
      anything else. */
  function RiskColour(risk: String): (c: String)
    ensures c == HighRisk <==> risk == "Alto"
    ensures c == MediumRisk <==> risk == "Médio"
    ensures c == LowRisk <==> risk == "Baixo"
    ensures c == UnknownRisk <==> risk !in {"Alto", "Médio", "Baixo"}
  {
    if risk == "Alto" then HighRisk
    else if risk == "Médio" then MediumRisk
    else if risk == "Baixo" then LowRisk
    else UnknownRisk
  }

  const Colors: seq<String> := [
    "#818cf8", "#34d399", "#f472b6", "#fb923c", "#60a5fa",
    "#a78bfa", "#4ade80", "#facc15", "#e879f9", "#38bdf8"]

  /** `COLORS[i % COLORS.length]`: the colour of the i-th lawyer in both lawyer charts. */
  function LawyerColour(i: nat): (c: String)
    ensures c in Colors
    ensures c == Colors[i % 10]
  {
    Colors[i % |Colors|]
  }

  /** The palette repeats every ten lawyers, and within ten lawyers no colour repeats. */
  lemma LawyerColourCycle(i: nat, j: nat)
    ensures LawyerColour(i) == LawyerColour(i + 10)
    ensures i < 10 && j < 10 && i != j ==> LawyerColour(i) != LawyerColour(j)
  {
    assert (i + 10) % 10 == i % 10;
  }

  const Ellipsis: char := '…'
  const PieLabelLimit: nat := 28
  const LineLabelLimit: nat := 22

  /** A legend entry: the value itself when it has at most `limit` characters, else its
      first `limit` characters and an ellipsis. */
  function LegendLabel(value: String, limit: nat): (r: String)
    ensures |value| <= limit ==> r == value
    ensures |value| > limit ==> |r| == limit + 1 && r[..limit] == value[..limit] && r[limit] == Ellipsis
    ensures |r| <= limit + 1
  {
    if |value| > limit then Slice(value, 0, limit) + [Ellipsis] else value
  }

  datatype Offender = Offender(value: String, sub: String)

  /** The "frequent offender" card: the case count and the name when a name is known,
      `0` and a placeholder otherwise. */
  function OffenderCard(m: Metrics): (o: Offender)
    ensures Truthy(m.topOffenderName) ==>
      o.value == Show(m.topOffenderCount) + " casos" && o.sub == m.topOffenderName.value
    ensures !Truthy(m.topOffenderName) ==> o.value == "0" && o.sub == "Nenhum identificado"
  {
    Offender(
      if Truthy(m.topOffenderName) then Show(m.topOffenderCount) + " casos" else "0",
      OrElse(m.topOffenderName, "Nenhum identificado"))
  }

  /** One pie slice or one line of a lawyer chart: its legend caption and its colour. */
  datatype Series = Series(caption: String, colour: String)

  datatype LawyerCharts = LawyerCharts(slices: seq<Series>, lines: seq<Series>)

  datatype Sections = Sections(risk: seq<String>, lawyers: Option<LawyerCharts>, pca: bool)

  datatype Screen = Spinner | ErrorAlert(message: String) | Nothing | Board(offender: Offender, sections: Sections)

  /** The pie of cases per lawyer: one slice per lawyer, coloured by position. */
  function Slices(byLawyer: seq<LawyerCount>): (r: seq<Series>)
    ensures |r| == |byLawyer|
    ensures forall i | 0 <= i < |r| ::
      r[i] == Series(LegendLabel(byLawyer[i].lawyer, PieLabelLimit), LawyerColour(i))
  {
    seq(|byLawyer|, i requires 0 <= i < |byLawyer| =>
      Series(LegendLabel(byLawyer[i].lawyer, PieLabelLimit), LawyerColour(i)))
  }

  /** The monthly chart: one line per lawyer, coloured by position. */
  function Lines(lawyers: seq<String>): (r: seq<Series>)
    ensures |r| == |lawyers|
    ensures forall i | 0 <= i < |r| ::
      r[i] == Series(LegendLabel(lawyers[i], LineLabelLimit), LawyerColour(i))
  {
    seq(|lawyers|, i requires 0 <= i < |lawyers| =>
      Series(LegendLabel(lawyers[i], LineLabelLimit), LawyerColour(i)))
  }

  /** What the page shows. The lawyer charts appear only when some lawyer has cases, the
      similarity map only when there are points; each risk slice gets the colour of its
      risk level. */
  function View(
    loading: bool, error: String, metrics: Option<Metrics>,
    lawyerStats: Option<LawyerStats>, pca: seq<PcaPoint>): (v: Screen)
    ensures loading <==> v == Spinner
    ensures !loading && error != [] <==> v == ErrorAlert(error) && error != []
    ensures v == Nothing <==> !loading && error == [] && metrics.None?
    ensures v.Board? ==>
      && v.offender == OffenderCard(metrics.value)
      && |v.sections.risk| == |metrics.value.riskDistribution|
      && (forall i | 0 <= i < |v.sections.risk| ::
            v.sections.risk[i] == RiskColour(metrics.value.riskDistribution[i].risk))
      && (v.sections.lawyers.Some? <==> lawyerStats.Some? && lawyerStats.value.byLawyer != [])
      && (v.sections.lawyers.Some? ==>
            v.sections.lawyers.value == LawyerCharts(
              Slices(lawyerStats.value.byLawyer), Lines(lawyerStats.value.allLawyers)))
      && (v.sections.pca <==> pca != [])
  {
    if loading then Spinner
    else if error != [] then ErrorAlert(error)
    else if metrics.None? then Nothing
    else
      var m := metrics.value;
      var risk := seq(|m.riskDistribution|, i requires 0 <= i < |m.riskDistribution| =>
        RiskColour(m.riskDistribution[i].risk));
      var lawyers :=
        if lawyerStats.Some? && lawyerStats.value.byLawyer != []
        then Some(LawyerCharts(Slices(lawyerStats.value.byLawyer), Lines(lawyerStats.value.allLawyers)))
        else None;
      Board(OffenderCard(m), Sections(risk, lawyers, pca != []))
  }

  const LoadFailed: String := "Erro ao carregar métricas"

  /** The three requests the mount effect sends together. */
  const Requests: seq<Request> := [Endpoints.Metrics, Endpoints.LawyerStats, Endpoints.Pca]

  /** The mount effect asks for the metrics, the lawyer statistics and the map, in the
      order its results are read back. */
  lemma MountRequests()
    ensures |Requests| == 3
    ensures Requests[0].path == "/dashboard/metrics" && Requests[1].path == "/dashboard/lawyer-stats"
    ensures Requests[2].path == "/dashboard/pca"
    ensures forall i | 0 <= i < 3 :: Requests[i].verb == Get && Requests[i].body == NoBody
  {
    DashboardEndpoints();
  }

  class DashboardPage {
    var metrics: Option<Metrics>
    var lawyerStats: Option<LawyerStats>
    var pca: seq<PcaPoint>
    var loading: bool
    var error: String

    /** The page as first rendered; its mount effect sends `Requests`. */
    constructor()
      ensures metrics == None && lawyerStats == None && pca == [] && loading && error == []
    {
      metrics := None;
      lawyerStats := None;
      pca := [];
      loading := true;
      error := [];
    }

    /** The three requests ended. Their data is kept only when all three succeeded;
        otherwise nothing of it is, and the error shows instead. */
    method FinishLoad(m: Response<Metrics>, l: Response<LawyerStats>, p: Response<seq<PcaPoint>>)
      modifies this
      ensures !loading
      ensures m.Ok? && l.Ok? && p.Ok? ==>
        metrics == Some(m.data) && lawyerStats == Some(l.data) && pca == p.data && error == old(error)
      ensures !(m.Ok? && l.Ok? && p.Ok?) ==>
        metrics == old(metrics) && lawyerStats == old(lawyerStats) && pca == old(pca) && error == LoadFailed
    {
      if m.Ok? && l.Ok? && p.Ok? {
        metrics := Some(m.data);
        lawyerStats := Some(l.data);
        pca := p.data;
      } else {
        error := LoadFailed;
      }
      loading := false;
    }
  }
}
