/** The dashboard (pages/Dashboard.tsx): four counters and three lists read
    from one `GET /dashboard` call, with every missing value defaulted and
    every failure shown as all zeros. */
module Dashboard {
  import opened Common
  import Transport
  import ManageStaff

  /** A point of one of the charts or a recent-patient row; the page passes
      them on to components outside this model. */
  datatype Entry = Entry(name: string, value: int)

  /** The `data` object as the server sends it: every field may be missing. */
  datatype RawStats = RawStats(
    totalPatients: Option<int>, activeCases: Option<int>,
    criticalCases: Option<int>, medicalRecords: Option<int>,
    patientEntries: Option<seq<Entry>>, demographics: Option<seq<Entry>>,
    recentPatients: Option<seq<Entry>>)

  /** The response body: `success` and, perhaps, `data`. */
  datatype Body = Body(success: bool, data: Option<RawStats>)

  datatype Stats = Stats(
    totalPatients: int, activeCases: int, criticalCases: int, medicalRecords: int,
    patientEntries: seq<Entry>, demographics: seq<Entry>, recentPatients: seq<Entry>)

  /** The state on first render and after any failure. */
  const EmptyStats := Stats(0, 0, 0, 0, [], [], [])

  const LoadFailedMessage := "Failed to load dashboard data. Please try again."

  /** What one load leaves on screen, and the error toast if any. */
  datatype Loaded = Loaded(stats: Stats, error: Option<string>)

  /** Each field `|| 0` or `|| []`. */
  function Normalise(raw: RawStats): (s: Stats)
    ensures raw.totalPatients.Some? ==> s.totalPatients == raw.totalPatients.value
    ensures raw.totalPatients.None? ==> s.totalPatients == 0
    ensures raw.activeCases.Some? ==> s.activeCases == raw.activeCases.value
    ensures raw.activeCases.None? ==> s.activeCases == 0
    ensures raw.criticalCases.Some? ==> s.criticalCases == raw.criticalCases.value
    ensures raw.criticalCases.None? ==> s.criticalCases == 0
    ensures raw.medicalRecords.Some? ==> s.medicalRecords == raw.medicalRecords.value
    ensures raw.medicalRecords.None? ==> s.medicalRecords == 0
    ensures raw.patientEntries.Some? ==> s.patientEntries == raw.patientEntries.value
    ensures raw.patientEntries.None? ==> s.patientEntries == []
    ensures raw.demographics.Some? ==> s.demographics == raw.demographics.value
    ensures raw.demographics.None? ==> s.demographics == []
    ensures raw.recentPatients.Some? ==> s.recentPatients == raw.recentPatients.value
    ensures raw.recentPatients.None? ==> s.recentPatients == []
  {
    Stats(raw.totalPatients.GetOr(0), raw.activeCases.GetOr(0), raw.criticalCases.GetOr(0),
          raw.medicalRecords.GetOr(0), raw.patientEntries.GetOr([]), raw.demographics.GetOr([]),
          raw.recentPatients.GetOr([]))
  }

  /** `fetchDashboardData`. A body without `success` is thrown as "Invalid
      response format" and a body without `data` fails on the first field
      read; neither carries a server `error`, so both show the page's own
      message. A refused call shows the server's `error` when it has one. */
  function Load(reply: ApiReply<Body>): (r: Loaded)
    ensures r.error.None? <==> reply.Succeeded? && reply.data.success && reply.data.data.Some?
    ensures r.error.None? ==> r.stats == Normalise(reply.data.data.value)
    ensures r.error.Some? ==> r.stats == EmptyStats && r.error.value != ""
    ensures reply.Rejected? && reply.error != "" ==> r.error == Some(reply.error)
    ensures !(reply.Rejected? && reply.error != "") && r.error.Some? ==> r.error == Some(LoadFailedMessage)
  {
    match reply
    case Succeeded(body) =>
      if body.success && body.data.Some? then Loaded(Normalise(body.data.value), None)
      else Loaded(EmptyStats, Some(LoadFailedMessage))
    case Rejected(e) => Loaded(EmptyStats, Some(OrElse(e, LoadFailedMessage)))
    case Unreachable => Loaded(EmptyStats, Some(LoadFailedMessage))
  }

  /** `Math.max(0, Math.floor(n / days))`: the whole number of `days`-long
      periods in `n`, never negative. */
  function PerPeriod(n: int, days: int): (r: int)
    requires days > 0
    ensures r >= 0
    ensures n >= 0 ==> r * days <= n < (r + 1) * days
    ensures n < days ==> r == 0
  {
    if n / days < 0 then 0 else n / days
  }

  /** "N new this month", from the total patient count. */
  function NewThisMonth(totalPatients: int): int
  {
    PerPeriod(totalPatients, 30)
  }

  /** "N admitted this week", from the active case count. */
  function AdmittedThisWeek(activeCases: int): int
  {
    PerPeriod(activeCases, 7)
  }

  /** A larger count never gives a smaller per-period figure. */
  lemma PerPeriodMonotone(m: int, n: int, days: int)
    requires days > 0 && m <= n
    ensures PerPeriod(m, days) <= PerPeriod(n, days)
  {
  }

  /** The critical-cases card's description. */
  function CriticalDescription(criticalCases: int): (text: string)
    ensures text == "Currently under intensive care" <==> criticalCases > 0
    ensures text == "No critical cases" <==> criticalCases <= 0
  {
    if criticalCases > 0 then "Currently under intensive care" else "No critical cases"
  }

  function Role(user: Option<Transport.User>): Option<string>
  {
    if user.Some? then Some(user.value.role) else None
  }

  /** The line under the greeting, by role. */
  function Subtitle(user: Option<Transport.User>): (text: string)
    ensures text == "System Overview" <==> Role(user) == Some("admin")
    ensures text == "Your Patient Cases" <==> Role(user) == Some("doctor")
    ensures text == "Today's Activities" <==> Role(user) !in {Some("admin"), Some("doctor")}
  {
    if Role(user) == Some("admin") then "System Overview"
    else if Role(user) == Some("doctor") then "Your Patient Cases"
    else "Today's Activities"
  }

  /** The badge beside it. */
  function Badge(user: Option<Transport.User>): (text: string)
    ensures text == "Admin Dashboard" <==> Role(user) == Some("admin")
    ensures text == "Medical Dashboard" <==> Role(user) != Some("admin")
  {
    if Role(user) == Some("admin") then "Admin Dashboard" else "Medical Dashboard"
  }

  /** The subtitle and the badge always agree on who is an administrator. */
  lemma SubtitleAgreesWithBadge(user: Option<Transport.User>)
    ensures Subtitle(user) == "System Overview" <==> Badge(user) == "Admin Dashboard"
  {
  }

  /** The dashboard calls a user an administrator exactly when the staff
      page would let that user in. */
  lemma AdminBadgeMatchesStaffGate(user: Option<Transport.User>)
    ensures Badge(user) == "Admin Dashboard" <==> ManageStaff.IsAdmin(user)
  {
  }
}
