/**
 * The patient dashboard's data: each stored report is shown with a model
 * label and a result label guessed from its filename, and the appointment
 * panel lists the upcoming appointments. The labels are case-sensitive
 * substring checks evaluated in a fixed order.
 *
 * The shown confidence is random (`Math.floor(Math.random() * 15) + 85`);
 * the random draw is a parameter, any natural number standing for the
 * floored value through its remainder modulo 15.
 */
module Dashboard {
  import opened Common
  import opened Text
  import opened Seqs

  const SkinLabel: string := "Skin Cancer Classification"
  const CovidLabel: string := "COVID-19 Analysis"
  const PneumoniaLabel: string := "Pneumonia Detection"
  const GenericLabel: string := "Medical Analysis"

  const BenignResult: string := "Benign"
  const NormalResult: string := "Normal"
  const GenericResult: string := "Analysis Complete"

  /** A report as the API returns it. */
  datatype Report = Report(id: string, filename: string, date: string, url: string)

  /** A report as the dashboard shows it. */
  datatype ShownReport = ShownReport(id: string, date: string, model: string, prediction: string,
                                     confidence: nat, url: string)

  /** The model label: "skin" first, then "covid", then "pneumonia". */
  function ModelLabel(filename: string): string {
    if Contains(filename, "skin") then SkinLabel
    else if Contains(filename, "covid") then CovidLabel
    else if Contains(filename, "pneumonia") then PneumoniaLabel
    else GenericLabel
  }

  /** The result label: "benign" first, then "normal". */
  function PredictionLabel(filename: string): string {
    if Contains(filename, "benign") then BenignResult
    else if Contains(filename, "normal") then NormalResult
    else GenericResult
  }

  /**
   * Each label names the first keyword of its list that the filename
   * contains, and the generic label means that it contains none of them.
   */
  lemma ModelLabelIff(filename: string)
    ensures ModelLabel(filename) == SkinLabel <==> Contains(filename, "skin")
    ensures ModelLabel(filename) == CovidLabel <==> !Contains(filename, "skin") && Contains(filename, "covid")
    ensures ModelLabel(filename) == PneumoniaLabel <==>
              !Contains(filename, "skin") && !Contains(filename, "covid") && Contains(filename, "pneumonia")
    ensures ModelLabel(filename) == GenericLabel <==>
              !Contains(filename, "skin") && !Contains(filename, "covid") && !Contains(filename, "pneumonia")
  {
    assert SkinLabel[0] != CovidLabel[0] && SkinLabel[0] != PneumoniaLabel[0] && SkinLabel[0] != GenericLabel[0];
    assert CovidLabel[0] != PneumoniaLabel[0] && CovidLabel[0] != GenericLabel[0];
    assert PneumoniaLabel[0] != GenericLabel[0];
  }

  /** The same for the result label. */
  lemma PredictionLabelIff(filename: string)
    ensures PredictionLabel(filename) == BenignResult <==> Contains(filename, "benign")
    ensures PredictionLabel(filename) == NormalResult <==> !Contains(filename, "benign") && Contains(filename, "normal")
    ensures PredictionLabel(filename) == GenericResult <==>
              !Contains(filename, "benign") && !Contains(filename, "normal")
  {
    assert BenignResult[0] != NormalResult[0] && BenignResult[0] != GenericResult[0];
    assert NormalResult[0] != GenericResult[0];
  }

  /** A name holding "skin" and "covid" is a skin report: the skin test comes first. */
  lemma SkinTakesPrecedence(prefix: string, middle: string, suffix: string)
    ensures ModelLabel(prefix + "skin" + middle + "covid" + suffix) == SkinLabel
  {
    var f := prefix + "skin" + middle + "covid" + suffix;
    assert f[|prefix|..|prefix| + 4] == "skin";
    ContainsAt(f, "skin", |prefix|);
  }

  /** The shown entry of one report; `draw` is the random draw. */
  function Shown(r: Report, draw: nat): (s: ShownReport)
    ensures 85 <= s.confidence <= 99
  {
    ShownReport(r.id, r.date, ModelLabel(r.filename), PredictionLabel(r.filename), draw % 15 + 85, r.url)
  }

  /** The report list of the dashboard: `draws(i)` is the draw made for report `i`. */
  function ShownReports(reports: seq<Report>, draws: nat -> nat): (shown: seq<ShownReport>)
    ensures |shown| == |reports|
    ensures forall i :: 0 <= i < |reports| ==>
              && shown[i].id == reports[i].id && shown[i].date == reports[i].date && shown[i].url == reports[i].url
              && shown[i].model == ModelLabel(reports[i].filename)
              && shown[i].prediction == PredictionLabel(reports[i].filename)
              && 85 <= shown[i].confidence <= 99
  {
    var shown := seq(|reports|, i requires 0 <= i < |reports| => Shown(reports[i], draws(i)));
    assert forall i :: 0 <= i < |reports| ==> shown[i] == Shown(reports[i], draws(i));
    shown
  }

  // ------------------------------------------------------------------ appointments

  datatype AppointmentStatus = Upcoming | Completed | Cancelled
  datatype Visit = InPerson | Video

  datatype Appointment = Appointment(id: string, doctor: string, date: string, time: string,
                                     status: AppointmentStatus, kind: Visit)

  predicate IsUpcoming(a: Appointment) { a.status == Upcoming }

  /** The appointments of the upcoming panel. */
  function UpcomingAppointments(appointments: seq<Appointment>): seq<Appointment> {
    Filter(appointments, IsUpcoming)
  }

  /**
   * The panel lists exactly the upcoming appointments, keeping their order:
   * the list of a concatenation is the concatenation of the lists.
   */
  lemma UpcomingMembers(a: seq<Appointment>, b: seq<Appointment>, x: Appointment)
    ensures x in UpcomingAppointments(a) <==> x in a && x.status == Upcoming
    ensures UpcomingAppointments(a + b) == UpcomingAppointments(a) + UpcomingAppointments(b)
  {
    FilterMembership(a, IsUpcoming, x);
    FilterAppend(a, b, IsUpcoming);
  }

  // ------------------------------------------------------------------ loading the page

  datatype DashboardState = DashboardState(
    recentReports: seq<ShownReport>,
    appointments: seq<Appointment>,
    isLoading: bool)

  /**
   * `fetchDashboardData`: reports received replace the shown list and the
   * fixed appointments are set; when the reports cannot be fetched both lists
   * stay as they were. Loading has ended in both cases.
   */
  function AfterFetch(prev: DashboardState, received: Option<seq<Report>>, draws: nat -> nat,
                      fixedAppointments: seq<Appointment>): (next: DashboardState)
    ensures !next.isLoading
    ensures received.None? ==> next.recentReports == prev.recentReports && next.appointments == prev.appointments
    ensures received.Some? ==>
              next.recentReports == ShownReports(received.value, draws) && next.appointments == fixedAppointments
  {
    match received
    case None => prev.(isLoading := false)
    case Some(reports) => DashboardState(ShownReports(reports, draws), fixedAppointments, false)
  }
}
