/** Motion authority under races: clients/web/connect-authority.js, bootstrap.js,
    control-gate.js, resume-control.js, the publish loop of control-loop.js and
    the connect path of session-transport.js, as one step system. A step is what
    runs between two awaits; any task may go next, and blur, focus, closing and
    the host's messages may come between any two steps. */
module Authority {
  import opened Wrappers

  // ---- tasks ----------------------------------------------------------------

  datatype Outcome = ControlStarted | ControlUnavailable | LeaseReleased | TelemetryOnly

  /** One connect attempt. `Gone` ended without a completed bootstrap. */
  datatype Phase =
    | Settling
    | Opening
    | Reading
    | Emitting
    | Booted
    | Deciding(leaseGranted: bool)
    | Decided(outcome: Outcome)
    | Gone

  /** What ended the bootstrap reader: a welcome at which no authority was
      wanted, the answer to its own request, or any other LeaseResponse. */
  datatype End = Open | AtWelcome | AtAnswer | AtStray(granted: bool)

  /** What became of a bootstrap request answered only on the session stream. */
  datatype Fate = LeftAlone | Resumed | Surrendered | Denied

  /** The bootstrap's own lease request: answered to the bootstrap reader, or only
      on the session stream, with a resume pending then or not. */
  datatype Request =
    | NotEmitted
    | Outstanding
    | InTime(granted: bool)
    | Late(pending: bool, fate: Fate)

  datatype Connect = Connect(manual: bool, phase: Phase, sentLease: bool, end: End, request: Request)

  datatype ResumePhase = Waiting | Requesting | Finished

  datatype Resume = Resume(session: nat, phase: ResumePhase)

  /** One control run: parked on the writer or on the interval, or ended. */
  datatype RunPhase = AwaitWriter | AwaitInterval | Ended

  datatype ControlRun = ControlRun(session: nat, phase: RunPhase, stopped: bool)

  datatype Event =
    | Latch
    | ResetByConnect(connect: nat)
    | ResetByResume(resume: nat)
    | LeaseDecision(connect: nat)
    | LeaseEmission(connect: nat)
    | UnwantedWelcome(connect: nat)
    | OwnAnswer(connect: nat, granted: bool)
    | StrayResponse(connect: nat, granted: bool)
    | LateAnswer(connect: nat, pending: bool, fate: Fate)
    | ResumeRequest(resume: nat)
    | Conclusion(connect: nat, outcome: Outcome)
    | ReleaseAsked(session: nat)
    | MotionFrame(run: nat)

  datatype State = State(
    latched: bool,
    focused: bool,
    active: Option<nat>,
    connected: bool,
    granted: bool,
    connects: seq<Connect>,
    resumes: seq<Resume>,
    resumePending: Option<nat>,
    runs: seq<ControlRun>,
    currentRun: Option<nat>,
    log: seq<Event>)

  const INITIAL := State(false, true, None, false, false, [], [], None, [], None, [])

  datatype Wake = StoppedWake | Ready | WriterFailed

  /** A lease response is the answer to the bootstrap's own request (`own`) or any
      other: of another scope, another vehicle, another request. The client
      cannot tell. `grants` is what the authority table holds for motion after
      it; one of another scope leaves that as it was. */
  datatype Action =
    // The user, the page, the network.
    | Blur
    | Focus
    | SessionClosed
    | AuthorityLost
    | RequestConnect
    | AutoReconnect
    | RequestResume
    // A connect attempt.
    | ReleasesSettled(connect: nat)
    | StreamReady(connect: nat, ok: bool)
    | ServerWelcome(connect: nat)
    | LeaseSent(connect: nat, emitted: bool, ok: bool)
    | BootstrapLeaseResponse(connect: nat, own: bool, grants: bool)
    | StreamEnded(connect: nat)
    | BootstrapReturned(connect: nat)
    | Decide(connect: nat, startSucceeds: bool)
    // A resume.
    | ResumeSettled(resume: nat)
    | ResumeWritten(resume: nat, failed: bool)
    | SessionLeaseResponse(session: nat, own: bool, grants: bool, startSucceeds: bool)
    // A control run.
    | WakeRun(run: nat, wake: Wake)
    | IntervalElapsed(run: nat)

  // ---- effects --------------------------------------------------------------

  /** The gate after an event. */
  predicate LatchedBy(latched: bool, e: Event) {
    if e.Latch? then true else if e.ResetByConnect? || e.ResetByResume? then false else latched
  }

  function Record(s: State, e: Event): State {
    s.(log := s.log + [e], latched := LatchedBy(s.latched, e))
  }

  predicate Live(s: State, session: nat) {
    s.active == Some(session) && s.connected
  }

  /** `sendLeaseRelease`: asks for the release of a live session's lease. */
  function AskRelease(s: State, session: nat): State {
    if Live(s, session) then Record(s, ReleaseAsked(session)) else s
  }

  function StopRun(s: State): State {
    if s.currentRun.Some? && s.currentRun.value < |s.runs| then
      s.(runs := s.runs[s.currentRun.value := s.runs[s.currentRun.value].(stopped := true)])
    else s
  }

  /** `suspendControlForInputLoss`: stops the current control run, and asks for
      the release of a lease that is granted or on its way. */
  function Suspend(s: State, session: nat): State {
    var t := StopRun(s);
    if s.granted || s.resumePending == Some(session) then AskRelease(t, session) else t
  }

  function WithConnect(s: State, i: nat, c: Connect): State
    requires i < |s.connects|
  {
    s.(connects := s.connects[i := c])
  }

  function StartRun(s: State, session: nat): State {
    s.(runs := s.runs + [ControlRun(session, AwaitWriter, false)], currentRun := Some(|s.runs|))
  }

  function EndRun(s: State, r: nat): State {
    if r < |s.runs| then s.(runs := s.runs[r := s.runs[r].(phase := Ended)]) else s
  }

  // ---- steps ----------------------------------------------------------------

  /** The page and the user. Only an explicit connect or resume re-arms the gate,
      at once and before its first await. Authority is lost through messages of
      a connected session. */
  function PageStep(s: State, a: Action): Option<State> {
    match a
    case Blur =>
      var t := Record(s, Latch).(focused := false);
      Some(if s.active.Some? then Suspend(t, s.active.value) else t)
    case Focus => Some(s.(focused := true))
    case SessionClosed => Some(s.(active := None, connected := false, resumePending := None, granted := false))
    case AuthorityLost => if s.connected then Some(s.(granted := false)) else None
    case RequestConnect =>
      Some(Record(s.(connects := s.connects + [NewConnect(true)]), ResetByConnect(|s.connects|)))
    case AutoReconnect => Some(s.(connects := s.connects + [NewConnect(false)]))
    case RequestResume =>
      if s.active.None? || !s.connected then None
      else Some(Record(s.(resumes := s.resumes + [Resume(s.active.value, Waiting)]), ResetByResume(|s.resumes|)))
    case _ => None
  }

  function NewConnect(manual: bool): Connect {
    Connect(manual, Settling, false, Open, NotEmitted)
  }

  function ConnectOf(a: Action): Option<nat> {
    match a
    case ReleasesSettled(i) => Some(i)
    case StreamReady(i, _) => Some(i)
    case ServerWelcome(i) => Some(i)
    case LeaseSent(i, _, _) => Some(i)
    case BootstrapLeaseResponse(i, _, _) => Some(i)
    case StreamEnded(i) => Some(i)
    case BootstrapReturned(i) => Some(i)
    case Decide(i, _) => Some(i)
    case _ => None
  }

  function ConnectStep(s: State, a: Action): Option<State> {
    match ConnectOf(a)
    case None => None
    case Some(i) => if i < |s.connects| then AttemptStep(s, i, s.connects[i], a) else None
  }

  // A connect attempt, step by step.

  function SettledStep(s: State, i: nat, c: Connect): Option<State>
    requires i < |s.connects|
  {
    if c.phase != Settling then None
    else Some(WithConnect(s, i, c.(phase := Opening)).(active := Some(i), connected := false, granted := false,
                                                       resumePending := None, currentRun := None))
  }

  function ReadyStep(s: State, i: nat, c: Connect, ok: bool): Option<State>
    requires i < |s.connects|
  {
    if c.phase != Opening then None
    else Some(WithConnect(s, i, c.(phase := if ok && s.active == Some(i) then Reading else Gone)))
  }

  /** The lease decision. */
  function WelcomeStep(s: State, i: nat, c: Connect): Option<State>
    requires i < |s.connects|
  {
    if c.phase != Reading then None
    else if !(c.manual && !s.latched) then
      Some(Record(WithConnect(s, i, c.(phase := Booted, end := AtWelcome)), UnwantedWelcome(i)))
    else if c.sentLease then Some(s)
    else Some(Record(WithConnect(s, i, c.(phase := Emitting, sentLease := true)), LeaseDecision(i)))
  }

  function SentStep(s: State, i: nat, c: Connect, emitted: bool, ok: bool): Option<State>
    requires i < |s.connects|
  {
    if c.phase != Emitting then None
    else
      var next := c.(phase := if ok then Reading else Gone);
      Some(if emitted then Record(WithConnect(s, i, next.(request := Outstanding)), LeaseEmission(i))
           else WithConnect(s, i, next))
  }

  /** Any LeaseResponse ends the reader; the reader does not look whose it is. */
  function AnswerStep(s: State, i: nat, c: Connect, own: bool, grants: bool): Option<State>
    requires i < |s.connects|
  {
    if c.phase != Reading || (own && !c.request.Outstanding?) then None
    else
      var t := Record(WithConnect(s, i, Answered(c, own, grants)), Answer(i, own, grants));
      Some(t.(granted := if s.active == Some(i) then grants else s.granted))
  }

  function Answered(c: Connect, own: bool, grants: bool): Connect {
    if own then c.(phase := Booted, end := AtAnswer, request := InTime(grants))
    else c.(phase := Booted, end := AtStray(grants))
  }

  function Answer(i: nat, own: bool, grants: bool): Event {
    if own then OwnAnswer(i, grants) else StrayResponse(i, grants)
  }

  function StreamEndedStep(s: State, i: nat, c: Connect): Option<State>
    requires i < |s.connects|
  {
    if c.phase != Reading then None else Some(WithConnect(s, i, c.(phase := Gone)))
  }

  function ReturnedStep(s: State, i: nat, c: Connect): Option<State>
    requires i < |s.connects|
  {
    if c.phase != Booted then None
    else if s.active != Some(i) then Some(WithConnect(s, i, c.(phase := Gone)))
    else Some(WithConnect(s, i, c.(phase := Deciding(s.granted))).(connected := true))
  }

  function DecideStep(s: State, i: nat, c: Connect, startSucceeds: bool): Option<State>
    requires i < |s.connects|
  {
    if !c.phase.Deciding? then None
    else
      var outcome :=
        if !c.phase.leaseGranted then TelemetryOnly
        else if s.latched then LeaseReleased
        else if startSucceeds && s.active == Some(i) then ControlStarted
        else ControlUnavailable;
      var t := Record(WithConnect(s, i, c.(phase := Decided(outcome))), Conclusion(i, outcome));
      Some(
        match outcome
        case ControlStarted => StartRun(t, i)
        case TelemetryOnly => t
        case _ => AskRelease(t, i))
  }

  function AttemptStep(s: State, i: nat, c: Connect, a: Action): Option<State>
    requires i < |s.connects|
  {
    match a
    case ReleasesSettled(_) => SettledStep(s, i, c)
    case StreamReady(_, ok) => ReadyStep(s, i, c, ok)
    case ServerWelcome(_) => WelcomeStep(s, i, c)
    case LeaseSent(_, emitted, ok) => SentStep(s, i, c, emitted, ok)
    case BootstrapLeaseResponse(_, own, grants) => AnswerStep(s, i, c, own, grants)
    case StreamEnded(_) => StreamEndedStep(s, i, c)
    case BootstrapReturned(_) => ReturnedStep(s, i, c)
    case Decide(_, startSucceeds) => DecideStep(s, i, c, startSucceeds)
    case _ => None
  }

  /** `resumeGrantDecision`. */
  datatype GrantDecision = Unrelated | Refused | Surrender | Start

  function ResumeGrantDecision(pending: bool, granted: bool, sessionLive: bool, mayPublish: bool): GrantDecision {
    if !pending then Unrelated
    else if !granted then Refused
    else if !sessionLive || !mayPublish then Surrender
    else Start
  }

  function FateOf(decision: GrantDecision, granted: bool, startSucceeds: bool): Fate {
    if !granted then Denied
    else match decision
      case Unrelated => LeftAlone
      case Start => if startSucceeds then Resumed else Surrendered
      case _ => Surrendered
  }

  predicate IsOutstanding(s: State, session: nat) {
    session < |s.connects| && s.connects[session].request.Outstanding?
  }

  /** Books a session response as the answer to the bootstrap's request. */
  function AnswerOwn(s: State, session: nat, pending: bool, fate: Fate): State
    requires session < |s.connects|
  {
    var c := s.connects[session].(request := Late(pending, fate));
    Record(WithConnect(s, session, c), LateAnswer(session, pending, fate))
  }

  /** `completePendingResume`. */
  function CompleteResume(s: State, session: nat, decision: GrantDecision, startSucceeds: bool): State {
    match decision
    case Unrelated => s
    case Refused => s.(resumePending := None)
    case Surrender => Suspend(s, session).(resumePending := None)
    case Start =>
      var t := s.(resumePending := None);
      if startSucceeds then StartRun(t, session) else Suspend(Record(t, Latch), session)
  }

  function ResumeStep(s: State, a: Action): Option<State> {
    match a
    case ResumeSettled(j) =>
      if j >= |s.resumes| || s.resumes[j].phase != Waiting then None
      else if !Live(s, s.resumes[j].session) || s.latched then
        Some(s.(resumes := s.resumes[j := s.resumes[j].(phase := Finished)]))
      else
        Some(Record(s, ResumeRequest(j)).(
          resumes := s.resumes[j := s.resumes[j].(phase := Requesting)],
          resumePending := Some(s.resumes[j].session)))
    case ResumeWritten(j, failed) =>
      if j >= |s.resumes| || s.resumes[j].phase != Requesting then None
      else
        var session := s.resumes[j].session;
        var t := s.(resumes := s.resumes[j := s.resumes[j].(phase := Finished)]);
        if failed then Some(Record(AskRelease(t, session), Latch).(resumePending := None))
        else if !Live(s, session) || s.latched then Some(AskRelease(t, session))
        else Some(t)
    case SessionLeaseResponse(session, own, grants, startSucceeds) =>
      if !Live(s, session) || (own && !IsOutstanding(s, session)) then None
      else
        var pending := s.resumePending == Some(session);
        var decision := ResumeGrantDecision(pending, grants, true, !s.latched);
        var t := if own then AnswerOwn(s, session, pending, FateOf(decision, grants, startSucceeds)) else s;
        Some(CompleteResume(t.(granted := grants), session, decision, startSucceeds))
    case _ => None
  }

  /** One turn of `runControlLoop`: from a settled writer to the next await. */
  function RunStep(s: State, a: Action): Option<State> {
    match a
    case WakeRun(r, wake) =>
      if r >= |s.runs| || s.runs[r].phase != AwaitWriter then None
      else
        var session := s.runs[r].session;
        if wake.StoppedWake? then (if s.runs[r].stopped then Some(EndRun(s, r)) else None)
        else if wake.WriterFailed? then Some(EndRun(Suspend(Record(s, Latch), session), r))
        else if !Live(s, session) then Some(EndRun(s, r))
        else if s.latched then Some(EndRun(Suspend(s, session), r))
        else
          var t := s.(runs := s.runs[r := s.runs[r].(phase := AwaitInterval)]);
          // `mayPublish`: not latched and really focused.
          Some(if s.focused then Record(t, MotionFrame(r)) else t)
    case IntervalElapsed(r) =>
      if r >= |s.runs| || s.runs[r].phase != AwaitInterval then None
      else if Live(s, s.runs[r].session) then Some(s.(runs := s.runs[r := s.runs[r].(phase := AwaitWriter)]))
      else Some(EndRun(s, r))
    case _ => None
  }

  function Step(s: State, a: Action): Option<State> {
    if PageStep(s, a).Some? then PageStep(s, a)
    else if ConnectStep(s, a).Some? then ConnectStep(s, a)
    else if ResumeStep(s, a).Some? then ResumeStep(s, a)
    else RunStep(s, a)
  }

  function Run(s: State, actions: seq<Action>): Option<State>
    decreases |actions|
  {
    if actions == [] then Some(s)
    else match Step(s, actions[0])
      case None => None
      case Some(next) => Run(next, actions[1..])
  }

  ghost predicate Reachable(s: State) {
    exists actions :: Run(INITIAL, actions) == Some(s)
  }

  // ---- reading the log ------------------------------------------------------

  /** Whether the gate is latched after these events. */
  function GateAfter(log: seq<Event>): bool {
    if log == [] then false else LatchedBy(GateAfter(log[..|log| - 1]), log[|log| - 1])
  }

  function Count(log: seq<Event>, e: Event): nat {
    if log == [] then 0 else Count(log[..|log| - 1], e) + (if log[|log| - 1] == e then 1 else 0)
  }

  function Conclusions(log: seq<Event>, i: nat): nat {
    Count(log, Conclusion(i, ControlStarted)) + Count(log, Conclusion(i, ControlUnavailable))
    + Count(log, Conclusion(i, LeaseReleased)) + Count(log, Conclusion(i, TelemetryOnly))
  }

  /** How often the bootstrap came back without the answer to its own request. */
  function UnansweredEnds(log: seq<Event>, i: nat): nat {
    Count(log, UnwantedWelcome(i)) + Count(log, StrayResponse(i, true)) + Count(log, StrayResponse(i, false))
  }

  lemma LogSnoc(log: seq<Event>, e: Event)
    ensures GateAfter(log + [e]) == LatchedBy(GateAfter(log), e)
    ensures forall f :: Count(log + [e], f) == Count(log, f) + if e == f then 1 else 0
  {
    assert (log + [e])[..|log|] == log;
  }

  // ---- the invariant --------------------------------------------------------

  /** Events that may only happen while the gate is open, or that name a task. */
  predicate Justified(s: State, e: Event, before: seq<Event>) {
    match e
    case MotionFrame(r) => !GateAfter(before) && r < |s.runs|
    case LeaseDecision(i) => !GateAfter(before) && i < |s.connects| && s.connects[i].manual
    case ResetByConnect(i) => i < |s.connects| && s.connects[i].manual
    case ResumeRequest(j) => !GateAfter(before) && j < |s.resumes|
    case LeaseEmission(i) =>
      i < |s.connects| && Count(before, LeaseDecision(i)) == 1 && UnansweredEnds(before, i) == 0
    case OwnAnswer(i, _) => Count(before, LeaseEmission(i)) == 1 && UnansweredEnds(before, i) == 0
    case LateAnswer(i, _, _) => Count(before, LeaseEmission(i)) == 1 && UnansweredEnds(before, i) == 1
    case Conclusion(i, outcome) =>
      && i < |s.connects| && s.connects[i].phase == Decided(outcome)
      && (outcome.ControlStarted? || outcome.ControlUnavailable? ==> !GateAfter(before))
      && (outcome.LeaseReleased? ==> GateAfter(before))
    case _ => true
  }

  ghost predicate LogInv(s: State) {
    && s.latched == GateAfter(s.log)
    && forall k :: 0 <= k < |s.log| ==> Justified(s, s.log[k], s.log[..k])
  }

  function One(b: bool): nat { if b then 1 else 0 }

  /** The books of one connect attempt. */
  ghost predicate Booked(c: Connect, i: nat, log: seq<Event>) {
    StepsBooked(c, i, log) && ConclusionBooked(c, i, log) && AnswersBooked(c, i, log)
  }

  predicate StepsBooked(c: Connect, i: nat, log: seq<Event>) {
    && Count(log, LeaseDecision(i)) == One(c.sentLease)
    && Count(log, LeaseEmission(i)) == One(!c.request.NotEmitted?)
    && Count(log, UnwantedWelcome(i)) == One(c.end.AtWelcome?)
    && Count(log, ResetByConnect(i)) == One(c.manual)
  }

  predicate ConclusionBooked(c: Connect, i: nat, log: seq<Event>) {
    && Conclusions(log, i) == One(c.phase.Decided?)
    && (c.phase.Decided? ==> Count(log, Conclusion(i, c.phase.outcome)) == 1)
  }

  ghost predicate AnswersBooked(c: Connect, i: nat, log: seq<Event>) {
    && (forall g :: Count(log, StrayResponse(i, g)) == One(c.end == AtStray(g)))
    && (forall g :: Count(log, OwnAnswer(i, g)) == One(c.request == InTime(g)))
    && (forall p, f :: Count(log, LateAnswer(i, p, f)) == One(c.request == Late(p, f)))
  }

  predicate Names(e: Event, i: nat) {
    && (e.LeaseDecision? || e.LeaseEmission? || e.UnwantedWelcome? || e.ResetByConnect? || e.OwnAnswer?
        || e.StrayResponse? || e.LateAnswer? || e.Conclusion?)
    && e.connect == i
  }

  ghost predicate Books(s: State) {
    && (forall i :: 0 <= i < |s.connects| ==> Booked(s.connects[i], i, s.log))
    && (forall i, e :: i >= |s.connects| && Names(e, i) ==> Count(s.log, e) == 0)
  }

  predicate Early(p: Phase) { p.Settling? || p.Opening? || p.Reading? || p.Emitting? }

  /** How an attempt's phase, the end of its bootstrap and its request fit. */
  predicate Placed(c: Connect) {
    && (Early(c.phase) ==> c.end.Open?)
    && (c.phase.Booted? || c.phase.Deciding? || c.phase.Decided? ==> !c.end.Open?)
    && (c.phase.Emitting? ==> c.sentLease && c.request.NotEmitted?)
    && (!c.sentLease ==> c.request.NotEmitted?)
    && (c.end.AtAnswer? <==> c.request.InTime?)
    && (c.request.Late? ==> c.end.AtWelcome? || c.end.AtStray?)
    && (c.request.Late? ==> c.phase.Deciding? || c.phase.Decided?)
    && (c.request.Late? && c.request.fate != Denied ==> (c.request.fate == LeftAlone <==> !c.request.pending))
    && (c.phase.Deciding? && c.request.InTime? ==> c.phase.leaseGranted == c.request.granted)
    && (c.phase.Deciding? && c.end.AtWelcome? ==> !c.phase.leaseGranted)
    && (c.phase.Deciding? && c.end.AtStray? ==> c.phase.leaseGranted == c.end.granted)
    && (c.phase.Decided? && c.request.InTime? ==> (c.request.granted <==> !c.phase.outcome.TelemetryOnly?))
    && (c.phase.Decided? && c.end.AtWelcome? ==> c.phase.outcome.TelemetryOnly?)
    && (c.phase.Decided? && c.end.AtStray? ==> (c.end.granted <==> !c.phase.outcome.TelemetryOnly?))
  }

  /** What the active session may be and know. */
  predicate ActivePlaced(c: Connect, connected: bool, granted: bool) {
    && !c.phase.Settling?
    && (c.phase.Gone? ==> c.end.Open?)
    && (connected <==> c.phase.Deciding? || c.phase.Decided?)
    && (Early(c.phase) ==> !granted)
    && (c.phase.Booted? && c.end.AtWelcome? ==> !granted)
    && (c.phase.Booted? && c.request.InTime? ==> granted == c.request.granted)
    && (c.phase.Booted? && c.end.AtStray? ==> granted == c.end.granted)
  }

  predicate SessionPlaced(s: State) {
    match s.active
    case None => !s.connected
    case Some(i) => i < |s.connects| && ActivePlaced(s.connects[i], s.connected, s.granted)
  }

  ghost predicate Places(s: State) {
    (forall i :: 0 <= i < |s.connects| ==> Placed(s.connects[i])) && SessionPlaced(s)
  }

  ghost predicate Inv(s: State) {
    LogInv(s) && Books(s) && Places(s)
  }

  // ---- what keeps the log and the books -------------------------------------

  /** What may happen to the tasks without disturbing what the log says. */
  predicate KeepsTasks(s: State, t: State) {
    && |t.connects| >= |s.connects| && |t.runs| >= |s.runs| && |t.resumes| >= |s.resumes|
    && (forall i :: 0 <= i < |s.connects| ==>
          && t.connects[i].manual == s.connects[i].manual
          && (s.connects[i].phase.Decided? ==> t.connects[i].phase == s.connects[i].phase))
  }

  lemma JustifiedStays(s: State, t: State, e: Event, before: seq<Event>)
    requires KeepsTasks(s, t) && Justified(s, e, before)
    ensures Justified(t, e, before)
  {
  }

  lemma SilentKeepsLog(s: State, t: State)
    requires LogInv(s) && KeepsTasks(s, t) && t.log == s.log && t.latched == s.latched
    ensures LogInv(t)
  {
    hide Justified;
    forall k | 0 <= k < |t.log|
      ensures Justified(t, t.log[k], t.log[..k])
    {
      JustifiedStays(s, t, s.log[k], s.log[..k]);
    }
  }

  lemma RecordKeepsLog(s: State, e: Event)
    requires LogInv(s) && Justified(s, e, s.log)
    ensures LogInv(Record(s, e))
  {
    hide Justified, KeepsTasks, LatchedBy;
    var t := Record(s, e);
    LogSnoc(s.log, e);
    assert KeepsTasks(s, t) by { TasksKept(s, t); }
    forall k | 0 <= k < |t.log|
      ensures Justified(t, t.log[k], t.log[..k])
    {
      if k < |s.log| {
        assert t.log[..k] == s.log[..k];
        JustifiedStays(s, t, s.log[k], s.log[..k]);
      } else {
        assert t.log[..k] == s.log;
        JustifiedStays(s, t, e, s.log);
      }
    }
  }

  lemma TasksKept(s: State, t: State)
    requires t.connects == s.connects && |t.runs| >= |s.runs| && |t.resumes| >= |s.resumes|
    ensures KeepsTasks(s, t)
  {
  }

  lemma StillBooked(c: Connect, i: nat, log: seq<Event>, e: Event)
    requires Booked(c, i, log) && !Names(e, i)
    ensures Booked(c, i, log + [e])
  {
    hide StepsBooked, ConclusionBooked, AnswersBooked;
    StepsStay(c, c, i, log, e);
    ConclusionStays(c, c, i, log, e);
    AnswersStay(c, c, i, log, e);
  }

  predicate TellsAnswer(e: Event, i: nat) {
    (e.StrayResponse? || e.OwnAnswer? || e.LateAnswer?) && e.connect == i
  }

  predicate SameAnswers(c: Connect, d: Connect) {
    && (d.end == c.end || (!c.end.AtStray? && !d.end.AtStray?))
    && (d.request == c.request || (Unanswered(c.request) && Unanswered(d.request)))
  }

  predicate Unanswered(r: Request) { r.NotEmitted? || r.Outstanding? }

  lemma AnswersStay(c: Connect, d: Connect, i: nat, log: seq<Event>, e: Event)
    requires AnswersBooked(c, i, log) && SameAnswers(c, d) && !TellsAnswer(e, i)
    ensures AnswersBooked(d, i, log + [e])
  {
    LogSnoc(log, e);
    hide Count;
  }

  predicate TellsStep(e: Event, i: nat) {
    (e.LeaseDecision? || e.LeaseEmission? || e.UnwantedWelcome? || e.ResetByConnect?) && e.connect == i
  }

  predicate SameSteps(c: Connect, d: Connect) {
    && c.manual == d.manual && c.sentLease == d.sentLease
    && (c.request.NotEmitted? <==> d.request.NotEmitted?) && (c.end.AtWelcome? <==> d.end.AtWelcome?)
  }

  lemma StepsStay(c: Connect, d: Connect, i: nat, log: seq<Event>, e: Event)
    requires StepsBooked(c, i, log) && SameSteps(c, d) && !TellsStep(e, i)
    ensures StepsBooked(d, i, log + [e])
  {
    LogSnoc(log, e);
    hide Count;
  }

  /** The step an event tells is what the attempt has done from then on. */
  predicate StepTold(e: Event, i: nat, c: Connect, d: Connect) {
    match e
    case LeaseDecision(j) => j == i && !c.sentLease && d == c.(phase := d.phase, sentLease := true)
    case LeaseEmission(j) => j == i && c.request.NotEmitted? && d == c.(phase := d.phase, request := Outstanding)
    case UnwantedWelcome(j) => j == i && c.end.Open? && d == c.(phase := d.phase, end := AtWelcome)
    case _ => false
  }

  lemma StepsMove(c: Connect, d: Connect, i: nat, log: seq<Event>, e: Event)
    requires StepsBooked(c, i, log) && StepTold(e, i, c, d)
    ensures StepsBooked(d, i, log + [e])
  {
    LogSnoc(log, e);
    hide Count;
  }

  predicate TellsConclusion(e: Event, i: nat) { e.Conclusion? && e.connect == i }

  lemma ConclusionStays(c: Connect, d: Connect, i: nat, log: seq<Event>, e: Event)
    requires ConclusionBooked(c, i, log) && !TellsConclusion(e, i)
    requires d.phase == c.phase || (!c.phase.Decided? && !d.phase.Decided?)
    ensures ConclusionBooked(d, i, log + [e])
  {
    LogSnoc(log, e);
    hide Count;
  }

  /** The books of an attempt that takes the step its event tells. */
  lemma StepBooks(c: Connect, d: Connect, i: nat, log: seq<Event>, e: Event)
    requires Booked(c, i, log) && StepTold(e, i, c, d) && !c.phase.Decided? && !d.phase.Decided?
    ensures Booked(d, i, log + [e])
  {
    hide StepsBooked, ConclusionBooked, AnswersBooked;
    StepsMove(c, d, i, log, e);
    ConclusionStays(c, d, i, log, e);
    AnswersStay(c, d, i, log, e);
  }

  /** The books of an attempt that gets the answer its event tells. */
  lemma AnswerBooks(c: Connect, d: Connect, i: nat, log: seq<Event>, e: Event)
    requires Booked(c, i, log) && AnswerTold(e, i, c, d)
    requires d.phase == c.phase || (!c.phase.Decided? && !d.phase.Decided?)
    ensures Booked(d, i, log + [e])
  {
    hide StepsBooked, ConclusionBooked, AnswersBooked;
    StepsStay(c, d, i, log, e);
    ConclusionStays(c, d, i, log, e);
    AnswersMove(c, d, i, log, e);
  }

  /** The answer an event tells is the one the attempt has from then on. */
  predicate AnswerTold(e: Event, i: nat, c: Connect, d: Connect) {
    match e
    case StrayResponse(j, g) => j == i && c.end.Open? && d == c.(phase := d.phase, end := AtStray(g))
    case OwnAnswer(j, g) =>
      && j == i && c.end.Open? && c.request.Outstanding?
      && d == c.(phase := d.phase, end := AtAnswer, request := InTime(g))
    case LateAnswer(j, p, f) => j == i && c.request.Outstanding? && d == c.(request := Late(p, f))
    case _ => false
  }

  lemma AnswersMove(c: Connect, d: Connect, i: nat, log: seq<Event>, e: Event)
    requires AnswersBooked(c, i, log) && AnswerTold(e, i, c, d)
    ensures AnswersBooked(d, i, log + [e])
  {
    LogSnoc(log, e);
    hide Count;
  }

  /** Events that name no connect attempt keep everything. */
  lemma RecordKeepsInv(s: State, e: Event)
    requires Inv(s) && Justified(s, e, s.log) && (forall i: nat :: !Names(e, i))
    ensures Inv(Record(s, e))
  {
    RecordKeepsLog(s, e);
    var t := Record(s, e);
    hide Booked, Names, LogInv, Placed, Justified;
    forall i | 0 <= i < |t.connects|
      ensures Booked(t.connects[i], i, t.log)
    {
      StillBooked(s.connects[i], i, s.log, e);
    }
    LogSnoc(s.log, e);
    forall i, f | i >= |t.connects| && Names(f, i)
      ensures Count(t.log, f) == 0
    {
      assert f != e;
    }
    hide Count;
  }

  /** So does what touches neither the attempts nor the session. */
  lemma QuietKeepsInv(s: State, t: State)
    requires Inv(s) && t.connects == s.connects && |t.runs| >= |s.runs| && |t.resumes| >= |s.resumes|
    requires t.log == s.log && t.latched == s.latched
    requires SessionPlaced(t)
    ensures Inv(t)
  {
    TasksKept(s, t);
    SilentKeepsLog(s, t);
    hide LogInv, Booked, Placed, SessionPlaced;
  }

  lemma SameSession(s: State, t: State)
    requires SessionPlaced(s) && t.connects == s.connects && t.active == s.active && t.connected == s.connected
      && t.granted == s.granted
    ensures SessionPlaced(t)
  {
  }

  lemma AskReleaseKeepsInv(s: State, session: nat)
    requires Inv(s)
    ensures Inv(AskRelease(s, session))
  {
    hide Inv;
    if Live(s, session) {
      RecordKeepsInv(s, ReleaseAsked(session));
    }
  }

  lemma SuspendKeepsInv(s: State, session: nat)
    requires Inv(s)
    ensures Inv(Suspend(s, session))
  {
    var t := StopRun(s);
    SameSession(s, t);
    QuietKeepsInv(s, t);
    AskReleaseKeepsInv(t, session);
    hide Inv, AskRelease, StopRun;
  }

  // ---- what changes one attempt ---------------------------------------------

  predicate Continues(c: Connect, d: Connect) {
    c.manual == d.manual && (c.phase.Decided? ==> d.phase == c.phase)
  }

  lemma ConnectKeepsBooks(s: State, i: nat, c: Connect)
    requires LogInv(s) && Books(s) && i < |s.connects| && Continues(s.connects[i], c) && Booked(c, i, s.log)
    ensures LogInv(WithConnect(s, i, c)) && Books(WithConnect(s, i, c))
  {
    ContinuingTasks(s, i, c);
    hide LogInv, Booked, Names, KeepsTasks, Count;
    SilentKeepsLog(s, WithConnect(s, i, c));
  }

  lemma EventKeepsBooks(s: State, i: nat, c: Connect, e: Event)
    requires LogInv(s) && Books(s) && i < |s.connects| && Continues(s.connects[i], c)
    requires Names(e, i) && Justified(WithConnect(s, i, c), e, s.log)
    requires Booked(c, i, s.log + [e])
    ensures LogInv(Record(WithConnect(s, i, c), e)) && Books(Record(WithConnect(s, i, c), e))
  {
    var u := WithConnect(s, i, c);
    EventBooks(s, i, c, e);
    ContinuingTasks(s, i, c);
    hide Books, Booked, Names, KeepsTasks, Justified;
    SilentKeepsLog(s, u);
    RecordKeepsLog(u, e);
  }

  lemma ContinuingTasks(s: State, i: nat, c: Connect)
    requires i < |s.connects| && Continues(s.connects[i], c)
    ensures KeepsTasks(s, WithConnect(s, i, c))
  {
  }

  lemma EventBooks(s: State, i: nat, c: Connect, e: Event)
    requires Books(s) && i < |s.connects| && Names(e, i) && Booked(c, i, s.log + [e])
    ensures Books(Record(WithConnect(s, i, c), e))
  {
    hide Booked, Count, LatchedBy, Names;
    var t := Record(WithConnect(s, i, c), e);
    forall j | 0 <= j < |t.connects|
      ensures Booked(t.connects[j], j, t.log)
    {
      if j != i {
        NamesOnlyOne(e, i, j);
        StillBooked(s.connects[j], j, s.log, e);
      }
    }
    forall j, f | j >= |t.connects| && Names(f, j)
      ensures Count(t.log, f) == 0
    {
      StillAbsent(s.log, e, i, f, j);
    }
  }

  lemma StillAbsent(log: seq<Event>, e: Event, i: nat, f: Event, j: nat)
    requires Names(e, i) && Names(f, j) && i != j && Count(log, f) == 0
    ensures Count(log + [e], f) == 0
  {
    assert (log + [e])[..|log|] == log;
    assert e != f;
  }

  lemma NamesOnlyOne(e: Event, i: nat, j: nat)
    requires Names(e, i) && i != j
    ensures !Names(e, j)
  {
  }

  /** What the invariant says of one attempt. */
  lemma AttemptFacts(s: State, i: nat)
    requires Inv(s) && i < |s.connects|
    ensures Booked(s.connects[i], i, s.log) && Placed(s.connects[i]) && SessionPlaced(s)
      && s.latched == GateAfter(s.log)
  {
    hide Booked, Placed, SessionPlaced;
  }

  lemma AttemptPlaces(s: State, t: State, i: nat, d: Connect)
    requires Places(s) && i < |s.connects| && t.connects == s.connects[i := d] && Placed(d) && SessionPlaced(t)
    ensures Places(t)
  {
    hide Placed, SessionPlaced;
  }

  /** A step that moves one attempt and records an event about it. */
  lemma EventKeepsInv(s: State, i: nat, d: Connect, e: Event)
    requires Inv(s) && i < |s.connects| && Continues(s.connects[i], d) && Names(e, i)
    requires Justified(WithConnect(s, i, d), e, s.log) && Booked(d, i, s.log + [e])
    requires Placed(d) && SessionPlaced(Record(WithConnect(s, i, d), e))
    ensures Inv(Record(WithConnect(s, i, d), e))
  {
    EventKeepsBooks(s, i, d, e);
    AttemptPlaces(s, Record(WithConnect(s, i, d), e), i, d);
    hide LogInv, Books, Places, Booked, Placed, SessionPlaced, Justified;
  }

  /** The same for an event that tells the session what it holds. */
  lemma GrantingEventKeepsInv(s: State, i: nat, d: Connect, e: Event, granted: bool)
    requires Inv(s) && i < |s.connects| && Continues(s.connects[i], d) && Names(e, i)
    requires Justified(WithConnect(s, i, d), e, s.log) && Booked(d, i, s.log + [e])
    requires Placed(d) && SessionPlaced(Record(WithConnect(s, i, d), e).(granted := granted))
    ensures Inv(Record(WithConnect(s, i, d), e).(granted := granted))
  {
    hide LogInv, Books, Places, Booked, Placed, SessionPlaced, Justified, Names, KeepsTasks, Continues, LatchedBy;
    var u := Record(WithConnect(s, i, d), e);
    var t := u.(granted := granted);
    EventKeepsBooks(s, i, d, e);
    TasksKept(u, t);
    SilentKeepsLog(u, t);
    BooksAreOfTheAttempts(u, t);
    AttemptPlaces(s, t, i, d);
  }

  lemma BooksAreOfTheAttempts(s: State, t: State)
    requires Books(s) && t.connects == s.connects && t.log == s.log
    ensures Books(t)
  {
    hide Booked, Names;
  }

  /** A step that moves one attempt, and perhaps the session, in silence. */
  lemma SilenceKeepsInv(s: State, t: State, i: nat, d: Connect)
    requires Inv(s) && i < |s.connects| && Continues(s.connects[i], d) && Booked(d, i, s.log) && Placed(d)
    requires t.connects == s.connects[i := d] && t.log == s.log && t.latched == s.latched && t.runs == s.runs
      && t.resumes == s.resumes
    requires SessionPlaced(t)
    ensures Inv(t)
  {
    ConnectKeepsBooks(s, i, d);
    var u := WithConnect(s, i, d);
    TasksKept(u, t);
    SilentKeepsLog(u, t);
    AttemptPlaces(s, t, i, d);
    hide LogInv, Booked, Placed, SessionPlaced, Names;
  }

  // ---- connect steps --------------------------------------------------------

  lemma NewConnectKeepsInv(s: State, manual: bool)
    requires Inv(s)
    ensures var u := s.(connects := s.connects + [NewConnect(manual)]);
      Inv(if manual then Record(u, ResetByConnect(|s.connects|)) else u)
  {
    var i, e := |s.connects|, ResetByConnect(|s.connects|);
    var u := s.(connects := s.connects + [NewConnect(manual)]);
    var t := if manual then Record(u, e) else u;
    SilentKeepsLog(s, u);
    if manual {
      RecordKeepsLog(u, e);
    }
    hide LogInv, Justified, KeepsTasks;
    FreshPlaces(s, manual, t);
    hide Places;
    NewBooks(s, manual, t);
    hide Books;
  }

  lemma NewBooks(s: State, manual: bool, t: State)
    requires Books(s) && t.connects == s.connects + [NewConnect(manual)]
    requires t.log == if manual then s.log + [ResetByConnect(|s.connects|)] else s.log
    ensures Books(t)
  {
    var i, e := |s.connects|, ResetByConnect(|s.connects|);
    FreshBooks(s.log, i, manual);
    forall j | 0 <= j < |t.connects|
      ensures Booked(t.connects[j], j, t.log)
    {
      if j < i && manual {
        NamesOnlyOne(e, i, j);
        StillBooked(s.connects[j], j, s.log, e);
      }
      hide Booked, Names;
    }
    hide Booked, Count, Names;
    forall j, f | j >= |t.connects| && Names(f, j)
      ensures Count(t.log, f) == 0
    {
      assert Names(e, i) by { NewIsNamed(i); }
      StillAbsent(s.log, e, i, f, j);
    }
  }

  lemma NewIsNamed(i: nat)
    ensures Names(ResetByConnect(i), i)
  {
  }

  lemma FreshPlaces(s: State, manual: bool, t: State)
    requires Places(s) && t.connects == s.connects + [NewConnect(manual)]
    requires t.active == s.active && t.connected == s.connected && t.granted == s.granted
    ensures Places(t)
  {
    hide ActivePlaced;
  }

  lemma FreshAnswers(log: seq<Event>, i: nat, manual: bool)
    requires forall f :: Names(f, i) ==> Count(log, f) == 0
    ensures AnswersBooked(NewConnect(manual), i, log)
  {
    hide Count;
    assert forall g :: Names(StrayResponse(i, g), i) && Names(OwnAnswer(i, g), i);
    assert forall p, f :: Names(LateAnswer(i, p, f), i);
  }

  lemma FreshConclusion(log: seq<Event>, i: nat, manual: bool)
    requires forall f :: Names(f, i) ==> Count(log, f) == 0
    ensures ConclusionBooked(NewConnect(manual), i, log)
  {
    hide Count;
    assert Names(Conclusion(i, ControlStarted), i) && Names(Conclusion(i, ControlUnavailable), i);
    assert Names(Conclusion(i, LeaseReleased), i) && Names(Conclusion(i, TelemetryOnly), i);
  }

  lemma FreshSteps(log: seq<Event>, i: nat, manual: bool)
    requires forall f :: Names(f, i) ==> Count(log, f) == 0
    ensures StepsBooked(NewConnect(manual), i, if manual then log + [ResetByConnect(i)] else log)
  {
    LogSnoc(log, ResetByConnect(i));
    hide Count;
    assert Names(LeaseDecision(i), i) && Names(LeaseEmission(i), i);
    assert Names(ResetByConnect(i), i) && Names(UnwantedWelcome(i), i);
  }

  lemma FreshBooks(log: seq<Event>, i: nat, manual: bool)
    requires forall f :: Names(f, i) ==> Count(log, f) == 0
    ensures Booked(NewConnect(manual), i, if manual then log + [ResetByConnect(i)] else log)
  {
    hide StepsBooked, ConclusionBooked, AnswersBooked, Names, Count;
    var c, e := NewConnect(manual), ResetByConnect(i);
    FreshSteps(log, i, manual);
    FreshConclusion(log, i, manual);
    ConclusionStays(c, c, i, log, e);
    FreshAnswers(log, i, manual);
    AnswersStay(c, c, i, log, e);
  }

  predicate IsSilent(a: Action) {
    !a.ServerWelcome? && !a.BootstrapLeaseResponse? && !a.Decide? && !(a.LeaseSent? && a.emitted)
  }

  /** A step that moves attempt `i`, and perhaps the session, and records
      nothing. */
  predicate Silent(s: State, t: State, i: nat)
    requires i < |s.connects|
  {
    && |t.connects| == |s.connects| && t.connects == s.connects[i := t.connects[i]]
    && t.log == s.log && t.latched == s.latched && t.runs == s.runs && t.resumes == s.resumes
    && SameBooks(s.connects[i], t.connects[i])
  }

  /** The attempt and the session it leaves. */
  predicate LeavesPlaced(t: State, i: nat) {
    i < |t.connects| && Placed(t.connects[i]) && SessionPlaced(t)
  }

  lemma SettledSilent(s: State, i: nat, c: Connect)
    requires i < |s.connects| && c == s.connects[i] && SettledStep(s, i, c).Some? && Placed(c)
    ensures Silent(s, SettledStep(s, i, c).value, i)
  {
    hide SessionPlaced;
  }

  lemma SettledPlaces(s: State, i: nat, c: Connect)
    requires i < |s.connects| && c == s.connects[i] && SettledStep(s, i, c).Some? && Placed(c) && SessionPlaced(s)
    ensures LeavesPlaced(SettledStep(s, i, c).value, i)
  {
  }

  lemma ReadySilent(s: State, i: nat, c: Connect, ok: bool)
    requires i < |s.connects| && c == s.connects[i] && ReadyStep(s, i, c, ok).Some? && Placed(c)
    ensures Silent(s, ReadyStep(s, i, c, ok).value, i)
  {
    hide SessionPlaced;
  }

  lemma ReadyPlaces(s: State, i: nat, c: Connect, ok: bool)
    requires i < |s.connects| && c == s.connects[i] && ReadyStep(s, i, c, ok).Some? && Placed(c) && SessionPlaced(s)
    ensures LeavesPlaced(ReadyStep(s, i, c, ok).value, i)
  {
  }

  lemma UnsentSilent(s: State, i: nat, c: Connect, ok: bool)
    requires i < |s.connects| && c == s.connects[i] && SentStep(s, i, c, false, ok).Some? && Placed(c)
    ensures Silent(s, SentStep(s, i, c, false, ok).value, i)
  {
    hide SessionPlaced;
  }

  lemma UnsentPlaces(s: State, i: nat, c: Connect, ok: bool)
    requires i < |s.connects| && c == s.connects[i] && SentStep(s, i, c, false, ok).Some? && Placed(c)
      && SessionPlaced(s)
    ensures LeavesPlaced(SentStep(s, i, c, false, ok).value, i)
  {
  }

  lemma StreamEndedSilent(s: State, i: nat, c: Connect)
    requires i < |s.connects| && c == s.connects[i] && StreamEndedStep(s, i, c).Some? && Placed(c)
    ensures Silent(s, StreamEndedStep(s, i, c).value, i)
  {
    hide SessionPlaced;
  }

  lemma StreamEndedPlaces(s: State, i: nat, c: Connect)
    requires i < |s.connects| && c == s.connects[i] && StreamEndedStep(s, i, c).Some? && Placed(c) && SessionPlaced(s)
    ensures LeavesPlaced(StreamEndedStep(s, i, c).value, i)
  {
  }

  lemma ReturnedSilent(s: State, i: nat, c: Connect)
    requires i < |s.connects| && c == s.connects[i] && ReturnedStep(s, i, c).Some? && Placed(c)
    ensures Silent(s, ReturnedStep(s, i, c).value, i)
  {
    hide SessionPlaced, Placed;
  }

  lemma ReturnedPlaces(s: State, i: nat, c: Connect)
    requires i < |s.connects| && c == s.connects[i] && ReturnedStep(s, i, c).Some? && Placed(c) && SessionPlaced(s)
    ensures LeavesPlaced(ReturnedStep(s, i, c).value, i)
  {
  }

  lemma SilentEffect(s: State, i: nat, c: Connect, a: Action)
    requires i < |s.connects| && c == s.connects[i] && IsSilent(a) && AttemptStep(s, i, c, a).Some?
    requires Placed(c) && SessionPlaced(s)
    ensures Silent(s, AttemptStep(s, i, c, a).value, i) && LeavesPlaced(AttemptStep(s, i, c, a).value, i)
  {
    hide Silent, LeavesPlaced, Placed, SessionPlaced, SettledStep, ReadyStep, SentStep, StreamEndedStep, ReturnedStep;
    match a
    case ReleasesSettled(_) =>
      SettledSilent(s, i, c);
      SettledPlaces(s, i, c);
    case StreamReady(_, ok) =>
      ReadySilent(s, i, c, ok);
      ReadyPlaces(s, i, c, ok);
    case LeaseSent(_, _, ok) =>
      UnsentSilent(s, i, c, ok);
      UnsentPlaces(s, i, c, ok);
    case StreamEnded(_) =>
      StreamEndedSilent(s, i, c);
      StreamEndedPlaces(s, i, c);
    case BootstrapReturned(_) =>
      ReturnedSilent(s, i, c);
      ReturnedPlaces(s, i, c);
  }

  predicate SameBooks(c: Connect, d: Connect) {
    && d == c.(phase := d.phase)
    && !c.phase.Decided? && !d.phase.Decided?
  }

  lemma SameBooksStayBooked(c: Connect, d: Connect, i: nat, log: seq<Event>)
    requires Booked(c, i, log) && SameBooks(c, d)
    ensures Booked(d, i, log)
  {
    hide Count, Conclusions;
  }

  lemma SilentStepKeepsInv(s: State, i: nat, a: Action)
    requires Inv(s) && ConnectStep(s, a).Some? && ConnectOf(a) == Some(i) && IsSilent(a)
    ensures Inv(ConnectStep(s, a).value)
  {
    var t := ConnectStep(s, a).value;
    AttemptFacts(s, i);
    SilentEffect(s, i, s.connects[i], a);
    SameBooksStayBooked(s.connects[i], t.connects[i], i, s.log);
    hide Inv, Booked, Placed, SessionPlaced, AttemptStep;
    SilenceKeepsInv(s, t, i, t.connects[i]);
  }

  /** A welcome either ends the bootstrap, or decides the one request, or
      changes nothing. */
  lemma WelcomeEffect(s: State, i: nat, c: Connect)
    requires i < |s.connects| && c == s.connects[i] && AttemptStep(s, i, c, ServerWelcome(i)).Some?
    requires Placed(c) && SessionPlaced(s)
    ensures var t := AttemptStep(s, i, c, ServerWelcome(i)).value;
      if !c.manual || s.latched then
        var d := c.(phase := Booted, end := AtWelcome);
        t == Record(WithConnect(s, i, d), UnwantedWelcome(i)) && Placed(d) && SessionPlaced(t)
      else if c.sentLease then t == s
      else
        var d := c.(phase := Emitting, sentLease := true);
        t == Record(WithConnect(s, i, d), LeaseDecision(i)) && Placed(d) && SessionPlaced(t)
    ensures c.phase.Reading? && c.end.Open?
  {
  }

  lemma WelcomeKeepsInv(s: State, i: nat)
    requires Inv(s) && ConnectStep(s, ServerWelcome(i)).Some?
    ensures Inv(ConnectStep(s, ServerWelcome(i)).value)
  {
    hide Inv, AttemptStep, Placed, SessionPlaced, GateAfter, Booked;
    var t := ConnectStep(s, ServerWelcome(i)).value;
    var c := s.connects[i];
    AttemptFacts(s, i);
    WelcomeEffect(s, i, c);
    var stop, ask := c.(phase := Booted, end := AtWelcome), c.(phase := Emitting, sentLease := true);
    if !c.manual || s.latched {
      StepBooks(c, stop, i, s.log, UnwantedWelcome(i));
      EventKeepsInv(s, i, stop, UnwantedWelcome(i));
    } else if !c.sentLease {
      StepBooks(c, ask, i, s.log, LeaseDecision(i));
      EventKeepsInv(s, i, ask, LeaseDecision(i));
    }
  }

  lemma EmissionEffect(s: State, i: nat, c: Connect, ok: bool)
    requires i < |s.connects| && c == s.connects[i] && AttemptStep(s, i, c, LeaseSent(i, true, ok)).Some?
    requires Placed(c) && SessionPlaced(s)
    ensures var d := c.(phase := if ok then Reading else Gone, request := Outstanding);
      var t := AttemptStep(s, i, c, LeaseSent(i, true, ok)).value;
      t == Record(WithConnect(s, i, d), LeaseEmission(i)) && Placed(d) && SessionPlaced(t)
    ensures c.phase.Emitting? && c.sentLease && c.request.NotEmitted? && c.end.Open?
  {
  }

  lemma EmissionKeepsInv(s: State, i: nat, ok: bool)
    requires Inv(s) && ConnectStep(s, LeaseSent(i, true, ok)).Some?
    ensures Inv(ConnectStep(s, LeaseSent(i, true, ok)).value)
  {
    hide Inv, AttemptStep, Placed, SessionPlaced, GateAfter, Booked, Justified;
    var c, e := s.connects[i], LeaseEmission(i);
    var d := c.(phase := if ok then Reading else Gone, request := Outstanding);
    AttemptFacts(s, i);
    EmissionEffect(s, i, c, ok);
    StepBooks(c, d, i, s.log, e);
    EmissionIsJustified(s, i, c, d, e);
    EventKeepsInv(s, i, d, e);
  }

  lemma EmissionIsJustified(s: State, i: nat, c: Connect, d: Connect, e: Event)
    requires i < |s.connects| && Booked(c, i, s.log) && c.sentLease && c.end.Open? && e == LeaseEmission(i)
    ensures Justified(WithConnect(s, i, d), e, s.log)
  {
    hide Count, Conclusions;
  }

  lemma AnswerEffect(s: State, i: nat, c: Connect, own: bool, grants: bool)
    requires i < |s.connects| && c == s.connects[i] && AnswerStep(s, i, c, own, grants).Some?
    requires Placed(c) && SessionPlaced(s)
    ensures Placed(Answered(c, own, grants)) && SessionPlaced(AnswerStep(s, i, c, own, grants).value)
    ensures c.end.Open? && (own ==> c.request.Outstanding?)
  {
  }

  lemma AnswerIsTold(i: nat, c: Connect, own: bool, grants: bool)
    requires c.phase.Reading? && c.end.Open? && (own ==> c.request.Outstanding?)
    ensures var d := Answered(c, own, grants);
      Continues(c, d) && !d.phase.Decided? && AnswerTold(Answer(i, own, grants), i, c, d)
        && Names(Answer(i, own, grants), i)
  {
  }

  lemma AnswerKeepsInv(s: State, i: nat, own: bool, grants: bool)
    requires Inv(s) && ConnectStep(s, BootstrapLeaseResponse(i, own, grants)).Some?
    ensures Inv(ConnectStep(s, BootstrapLeaseResponse(i, own, grants)).value)
  {
    hide Inv, Booked, Justified, Placed, SessionPlaced, Answered, Answer, AnswerTold, Names, Continues, GateAfter;
    var c := s.connects[i];
    var d, e := Answered(c, own, grants), Answer(i, own, grants);
    AttemptFacts(s, i);
    AnswerEffect(s, i, c, own, grants);
    AnswerIsTold(i, c, own, grants);
    AnswerBooks(c, d, i, s.log, e);
    AnswerIsJustified(s, i, c, own, grants);
    GrantingEventKeepsInv(s, i, d, e, if s.active == Some(i) then grants else s.granted);
  }

  lemma AnswerIsJustified(s: State, i: nat, c: Connect, own: bool, grants: bool)
    requires i < |s.connects| && Booked(c, i, s.log) && c.end.Open? && (own ==> c.request.Outstanding?)
    ensures Justified(WithConnect(s, i, Answered(c, own, grants)), Answer(i, own, grants), s.log)
  {
    hide Count, Conclusions;
  }

  lemma DecideEffect(s: State, i: nat, c: Connect, startSucceeds: bool)
    requires i < |s.connects| && c == s.connects[i] && DecideStep(s, i, c, startSucceeds).Some?
    ensures c.phase.Deciding?
    ensures exists o :: DecidesFor(s, DecideStep(s, i, c, startSucceeds).value, i, c, o)
  {
    var o := DecideStep(s, i, c, startSucceeds).value.connects[i].phase.outcome;
    assert DecidesFor(s, DecideStep(s, i, c, startSucceeds).value, i, c, o);
  }

  predicate DecidesFor(s: State, t: State, i: nat, c: Connect, o: Outcome)
    requires i < |s.connects| && c.phase.Deciding?
  {
    var u := Record(WithConnect(s, i, c.(phase := Decided(o))), Conclusion(i, o));
    && (t == u || t == StartRun(u, i) || t == AskRelease(u, i))
    && (o.ControlStarted? || o.ControlUnavailable? ==> !s.latched) && (o.LeaseReleased? ==> s.latched)
    && (c.phase.leaseGranted <==> !o.TelemetryOnly?)
  }

  lemma DecidePlaces(s: State, i: nat, c: Connect, o: Outcome)
    requires i < |s.connects| && c == s.connects[i] && c.phase.Deciding? && Placed(c) && SessionPlaced(s)
    requires c.phase.leaseGranted <==> !o.TelemetryOnly?
    ensures Placed(c.(phase := Decided(o)))
      && SessionPlaced(Record(WithConnect(s, i, c.(phase := Decided(o))), Conclusion(i, o)))
  {
  }

  lemma DecideKeepsInv(s: State, i: nat, startSucceeds: bool)
    requires Inv(s) && ConnectStep(s, Decide(i, startSucceeds)).Some?
    ensures Inv(ConnectStep(s, Decide(i, startSucceeds)).value)
  {
    hide Inv, DecideStep, DecidesFor;
    var t := ConnectStep(s, Decide(i, startSucceeds)).value;
    var c := s.connects[i];
    DecideEffect(s, i, c, startSucceeds);
    hide ConnectStep;
    var o :| DecidesFor(s, t, i, c, o);
    DecidedKeepsInv(s, i, c, t, o);
  }

  lemma DecidedKeepsInv(s: State, i: nat, c: Connect, t: State, o: Outcome)
    requires Inv(s) && i < |s.connects| && c == s.connects[i] && c.phase.Deciding? && DecidesFor(s, t, i, c, o)
    ensures Inv(t)
  {
    hide Inv, Placed, SessionPlaced, GateAfter, Booked, Justified, StartRun, AskRelease, Record;
    AttemptFacts(s, i);
    var d, e := c.(phase := Decided(o)), Conclusion(i, o);
    var u := Record(WithConnect(s, i, d), e);
    DecidePlaces(s, i, c, o);
    ConclusionIsJustified(s, i, c, o);
    ConclusionBooks(c, d, i, s.log, e);
    EventKeepsInv(s, i, d, e);
    StartRunKeepsInv(u, i);
    AskReleaseKeepsInv(u, i);
  }

  lemma ConclusionIsJustified(s: State, i: nat, c: Connect, o: Outcome)
    requires i < |s.connects| && c.phase.Deciding? && s.latched == GateAfter(s.log)
    requires o.ControlStarted? || o.ControlUnavailable? ==> !s.latched
    requires o.LeaseReleased? ==> s.latched
    ensures Justified(WithConnect(s, i, c.(phase := Decided(o))), Conclusion(i, o), s.log)
  {
    hide GateAfter;
  }

  lemma StartRunKeepsInv(s: State, session: nat)
    requires Inv(s)
    ensures Inv(StartRun(s, session))
  {
    SameSession(s, StartRun(s, session));
    QuietKeepsInv(s, StartRun(s, session));
    hide Inv;
  }

  lemma ConclusionMoves(c: Connect, d: Connect, i: nat, log: seq<Event>, e: Event)
    requires ConclusionBooked(c, i, log) && c.phase.Deciding? && d.phase.Decided? && e == Conclusion(i, d.phase.outcome)
    ensures ConclusionBooked(d, i, log + [e])
  {
    LogSnoc(log, e);
    hide Count;
    match d.phase.outcome
    case ControlStarted =>
    case ControlUnavailable =>
    case LeaseReleased =>
    case TelemetryOnly =>
  }

  lemma ConclusionBooks(c: Connect, d: Connect, i: nat, log: seq<Event>, e: Event)
    requires Booked(c, i, log) && c.phase.Deciding? && d.phase.Decided? && d == c.(phase := d.phase)
    requires e == Conclusion(i, d.phase.outcome)
    ensures Booked(d, i, log + [e])
  {
    hide StepsBooked, ConclusionBooked, AnswersBooked;
    StepsStay(c, d, i, log, e);
    ConclusionMoves(c, d, i, log, e);
    AnswersStay(c, d, i, log, e);
  }

  lemma ConnectKeepsInv(s: State, a: Action)
    requires Inv(s) && ConnectStep(s, a).Some?
    ensures Inv(ConnectStep(s, a).value)
  {
    var i := ConnectOf(a).value;
    hide Inv, ConnectStep;
    match a
    case ServerWelcome(_) => WelcomeKeepsInv(s, i);
    case BootstrapLeaseResponse(_, own, grants) => AnswerKeepsInv(s, i, own, grants);
    case Decide(_, startSucceeds) => DecideKeepsInv(s, i, startSucceeds);
    case LeaseSent(_, emitted, ok) =>
      if emitted {
        EmissionKeepsInv(s, i, ok);
      } else {
        SilentStepKeepsInv(s, i, a);
      }
    case _ => SilentStepKeepsInv(s, i, a);
  }

  // ---- page, resume and run steps -------------------------------------------

  lemma PageKeepsInv(s: State, a: Action)
    requires Inv(s) && PageStep(s, a).Some?
    ensures Inv(PageStep(s, a).value)
  {
    hide Inv;
    var t := PageStep(s, a).value;
    match a
    case RequestConnect => NewConnectKeepsInv(s, true);
    case AutoReconnect => NewConnectKeepsInv(s, false);
    case Blur => BlurKeepsInv(s);
    case RequestResume =>
      var u := s.(resumes := s.resumes + [Resume(s.active.value, Waiting)]);
      OnlyResumesKeepsInv(s, u);
      RecordKeepsInv(u, ResetByResume(|s.resumes|));
    case _ =>
      SessionOf(s);
      PageMovesSession(s, a);
      QuietKeepsInv(s, t);
  }

  lemma BlurKeepsInv(s: State)
    requires Inv(s)
    ensures Inv(PageStep(s, Blur).value)
  {
    hide Inv, Suspend;
    var u := Record(s, Latch);
    RecordKeepsInv(s, Latch);
    SessionOf(u);
    var v := u.(focused := false);
    SameSession(u, v);
    QuietKeepsInv(u, v);
    hide SessionPlaced;
    if s.active.Some? {
      SuspendKeepsInv(v, s.active.value);
    }
  }

  lemma PageMovesSession(s: State, a: Action)
    requires PageStep(s, a).Some? && SessionPlaced(s)
    ensures a.Focus? || a.SessionClosed? || a.AuthorityLost? ==> SessionPlaced(PageStep(s, a).value)
  {
  }

  predicate FitsPending(pending: bool, fate: Fate) {
    fate != Denied ==> (fate == LeftAlone <==> !pending)
  }

  /** A late answer is booked while its session is live. */
  lemma LateAnswerKeepsInv(s: State, session: nat, pending: bool, fate: Fate)
    requires Inv(s) && Live(s, session) && IsOutstanding(s, session) && FitsPending(pending, fate)
    ensures Inv(AnswerOwn(s, session, pending, fate))
  {
    hide Inv, SessionPlaced, Placed, Booked, Justified, FitsPending, GateAfter, Record;
    var c, e := s.connects[session], LateAnswer(session, pending, fate);
    var d := c.(request := Late(pending, fate));
    AttemptFacts(s, session);
    LatePlaces(s, session, c, d, e);
    AnswerBooks(c, d, session, s.log, e);
    LateIsJustified(s, session, c, d, e);
    EventKeepsInv(s, session, d, e);
  }

  lemma LatePlaces(s: State, i: nat, c: Connect, d: Connect, e: Event)
    requires Live(s, i) && i < |s.connects| && c == s.connects[i] && Placed(c) && SessionPlaced(s)
    requires c.request.Outstanding? && d.request.Late? && d == c.(request := d.request)
    requires FitsPending(d.request.pending, d.request.fate)
    ensures c.end.AtWelcome? || c.end.AtStray?
    ensures Placed(d) && SessionPlaced(Record(WithConnect(s, i, d), e))
  {
    assert c.phase.Deciding? || c.phase.Decided?;
    LateIsPlaced(c, d);
    hide Placed, FitsPending;
  }

  lemma LateIsPlaced(c: Connect, d: Connect)
    requires Placed(c) && (c.phase.Deciding? || c.phase.Decided?) && c.request.Outstanding?
    requires d.request.Late? && d == c.(request := d.request) && FitsPending(d.request.pending, d.request.fate)
    ensures Placed(d)
  {
  }

  lemma LateIsJustified(s: State, i: nat, c: Connect, d: Connect, e: Event)
    requires i < |s.connects| && Booked(c, i, s.log) && c.request.Outstanding? && (c.end.AtWelcome? || c.end.AtStray?)
    requires e.LateAnswer? && e.connect == i
    ensures Justified(WithConnect(s, i, d), e, s.log)
  {
    hide Count, Conclusions;
  }

  lemma CompleteKeepsInv(s: State, session: nat, decision: GrantDecision, startSucceeds: bool)
    requires Inv(s)
    ensures Inv(CompleteResume(s, session, decision, startSucceeds))
  {
    var t := s.(resumePending := None);
    SameSession(s, t);
    QuietKeepsInv(s, t);
    match decision
    case Surrender =>
      var u := Suspend(s, session);
      SuspendKeepsInv(s, session);
      SameSession(u, u.(resumePending := None));
      QuietKeepsInv(u, u.(resumePending := None));
    case Start =>
      if startSucceeds {
        StartRunKeepsInv(t, session);
      } else {
        RecordKeepsInv(t, Latch);
        SuspendKeepsInv(Record(t, Latch), session);
      }
    case _ =>
    hide Inv, Suspend;
  }

  lemma GrantedKeepsInv(s: State, granted: bool)
    requires Inv(s) && s.connected
    ensures Inv(s.(granted := granted))
  {
    assert SessionPlaced(s.(granted := granted));
    QuietKeepsInv(s, s.(granted := granted));
    hide Inv;
  }

  lemma ResponseKeepsInv(s: State, session: nat, own: bool, grants: bool, startSucceeds: bool)
    requires Inv(s) && Live(s, session) && (own ==> IsOutstanding(s, session))
    ensures Inv(ResumeStep(s, SessionLeaseResponse(session, own, grants, startSucceeds)).value)
  {
    hide Inv, CompleteResume;
    var pending := s.resumePending == Some(session);
    var decision := ResumeGrantDecision(pending, grants, true, !s.latched);
    var fate := FateOf(decision, grants, startSucceeds);
    assert FitsPending(pending, fate);
    hide ResumeGrantDecision, FateOf, FitsPending;
    if own {
      LateAnswerKeepsInv(s, session, pending, fate);
    }
    var t := if own then AnswerOwn(s, session, pending, fate) else s;
    GrantedKeepsInv(t, grants);
    CompleteKeepsInv(t.(granted := grants), session, decision, startSucceeds);
  }

  lemma SettledResumeKeepsInv(s: State, j: nat)
    requires Inv(s) && ResumeStep(s, ResumeSettled(j)).Some?
    ensures Inv(ResumeStep(s, ResumeSettled(j)).value)
  {
    var t := ResumeStep(s, ResumeSettled(j)).value;
    hide Inv;
    if Live(s, s.resumes[j].session) && !s.latched {
      RequestRecorded(s, j);
      hide ResumeStep, Record;
      OnlyResumesKeepsInv(Record(s, ResumeRequest(j)), t);
    } else {
      OnlyResumesKeepsInv(s, t);
    }
  }

  /** Nothing but the resumes differs. */
  predicate OnlyResumes(s: State, t: State) {
    && t == s.(resumes := t.resumes, resumePending := t.resumePending) && |t.resumes| >= |s.resumes|
  }

  lemma OnlyResumesKeepsInv(s: State, t: State)
    requires Inv(s) && OnlyResumes(s, t)
    ensures Inv(t)
  {
    SessionOf(s);
    hide Inv;
    SameSession(s, t);
    QuietKeepsInv(s, t);
  }

  lemma RequestRecorded(s: State, j: nat)
    requires Inv(s) && j < |s.resumes| && Live(s, s.resumes[j].session) && !s.latched
      && ResumeStep(s, ResumeSettled(j)).Some?
    ensures Inv(Record(s, ResumeRequest(j)))
    ensures OnlyResumes(Record(s, ResumeRequest(j)), ResumeStep(s, ResumeSettled(j)).value)
  {
    hide Inv, GateAfter;
    GateIsLogged(s);
    RecordKeepsInv(s, ResumeRequest(j));
  }

  lemma SessionOf(s: State)
    requires Inv(s)
    ensures SessionPlaced(s)
  {
    hide LogInv, Books;
  }

  lemma WrittenResumeKeepsInv(s: State, j: nat, failed: bool)
    requires Inv(s) && ResumeStep(s, ResumeWritten(j, failed)).Some?
    ensures Inv(ResumeStep(s, ResumeWritten(j, failed)).value)
  {
    hide Inv, AskRelease, SessionPlaced;
    var session := s.resumes[j].session;
    var t := s.(resumes := s.resumes[j := s.resumes[j].(phase := Finished)]);
    SessionOf(s);
    SameSession(s, t);
    QuietKeepsInv(s, t);
    AskReleaseKeepsInv(t, session);
    if failed {
      var u := Record(AskRelease(t, session), Latch);
      RecordKeepsInv(AskRelease(t, session), Latch);
      SessionOf(u);
      SameSession(u, u.(resumePending := None));
      QuietKeepsInv(u, u.(resumePending := None));
    }
  }

  lemma ResumeKeepsInv(s: State, a: Action)
    requires Inv(s) && ResumeStep(s, a).Some?
    ensures Inv(ResumeStep(s, a).value)
  {
    hide Inv;
    match a
    case SessionLeaseResponse(session, own, grants, startSucceeds) =>
      assert Live(s, session) && (own ==> IsOutstanding(s, session));
      hide ResumeStep;
      ResponseKeepsInv(s, session, own, grants, startSucceeds);
    case ResumeSettled(j) =>
      hide ResumeStep;
      SettledResumeKeepsInv(s, j);
    case ResumeWritten(j, failed) =>
      hide ResumeStep;
      WrittenResumeKeepsInv(s, j, failed);
  }

  lemma EndRunKeepsInv(s: State, r: nat)
    requires Inv(s)
    ensures Inv(EndRun(s, r))
  {
    SameSession(s, EndRun(s, r));
    QuietKeepsInv(s, EndRun(s, r));
    hide Inv;
  }

  lemma RunKeepsInv(s: State, a: Action)
    requires Inv(s) && RunStep(s, a).Some?
    ensures Inv(RunStep(s, a).value)
  {
    hide Inv, Suspend, EndRun;
    EndRunKeepsInv(s, a.run);
    match a
    case WakeRun(r, wake) => WakeKeepsInv(s, r);
    case IntervalElapsed(r) => ParkKeepsInv(s, r, AwaitWriter);
  }

  lemma ParkKeepsInv(s: State, r: nat, phase: RunPhase)
    requires Inv(s) && r < |s.runs|
    ensures Inv(s.(runs := s.runs[r := s.runs[r].(phase := phase)]))
  {
    var t := s.(runs := s.runs[r := s.runs[r].(phase := phase)]);
    SameSession(s, t);
    QuietKeepsInv(s, t);
    hide Inv;
  }

  /** The ways a woken run goes on. */
  lemma WakeKeepsInv(s: State, r: nat)
    requires Inv(s) && r < |s.runs|
    ensures var session := s.runs[r].session;
      var t := s.(runs := s.runs[r := s.runs[r].(phase := AwaitInterval)]);
      && Inv(EndRun(Suspend(Record(s, Latch), session), r)) && Inv(EndRun(Suspend(s, session), r)) && Inv(t)
      && (!s.latched ==> Inv(Record(t, MotionFrame(r))))
  {
    var session := s.runs[r].session;
    var t := s.(runs := s.runs[r := s.runs[r].(phase := AwaitInterval)]);
    hide Inv, Suspend, EndRun;
    GateIsLogged(s);
    RecordKeepsInv(s, Latch);
    SuspendKeepsInv(Record(s, Latch), session);
    EndRunKeepsInv(Suspend(Record(s, Latch), session), r);
    SuspendKeepsInv(s, session);
    EndRunKeepsInv(Suspend(s, session), r);
    ParkKeepsInv(s, r, AwaitInterval);
    hide Record, GateAfter;
    if !s.latched {
      FrameKeepsInv(t, r);
    }
  }

  lemma FrameKeepsInv(s: State, r: nat)
    requires Inv(s) && r < |s.runs| && !s.latched
    ensures Inv(Record(s, MotionFrame(r)))
  {
    GateIsLogged(s);
    hide Inv;
    RecordKeepsInv(s, MotionFrame(r));
  }

  lemma GateIsLogged(s: State)
    requires Inv(s)
    ensures s.latched == GateAfter(s.log)
  {
    hide Books, Places;
  }

  lemma StepKeepsInv(s: State, a: Action)
    requires Inv(s) && Step(s, a).Some?
    ensures Inv(Step(s, a).value)
  {
    hide PageStep, ConnectStep, ResumeStep, RunStep, Inv;
    if PageStep(s, a).Some? {
      PageKeepsInv(s, a);
    } else if ConnectStep(s, a).Some? {
      ConnectKeepsInv(s, a);
    } else if ResumeStep(s, a).Some? {
      ResumeKeepsInv(s, a);
    } else {
      RunKeepsInv(s, a);
    }
  }

  lemma {:induction false} EveryRunKeepsInv(s: State, actions: seq<Action>)
    requires Inv(s) && Run(s, actions).Some?
    ensures Inv(Run(s, actions).value)
    decreases |actions|
  {
    hide Step, Inv;
    if actions != [] {
      StepKeepsInv(s, actions[0]);
      EveryRunKeepsInv(Step(s, actions[0]).value, actions[1..]);
    }
  }

  lemma ReachableInv(s: State)
    requires Reachable(s)
    ensures Inv(s)
  {
    hide Run;
    var actions :| Run(INITIAL, actions) == Some(s);
    EveryRunKeepsInv(INITIAL, actions);
  }

  // ---- what holds in every interleaving -------------------------------------

  /** No motion or gimbal frame is sent while the gate is latched. */
  lemma NoFrameWhileLatched(s: State, k: nat)
    requires Reachable(s) && k < |s.log| && s.log[k].MotionFrame?
    ensures !GateAfter(s.log[..k])
  {
    ReachableInv(s);
    assert Justified(s, s.log[k], s.log[..k]);
  }

  predicate IsReset(e: Event) { e.ResetByConnect? || e.ResetByResume? }

  lemma {:induction false} LatchHoldsUntilReset(log: seq<Event>, i: nat, j: nat)
    requires i < j <= |log| && log[i].Latch? && !GateAfter(log[..j])
    ensures exists k :: i < k < j && IsReset(log[k])
    decreases j
  {
    var before := log[..j - 1];
    assert log[..j][..|log[..j]| - 1] == before;
    if !IsReset(log[j - 1]) {
      assert j - 1 != i;
      LatchHoldsUntilReset(log, i, j - 1);
    }
  }

  predicate IsExplicitReset(s: State, e: Event) {
    IsReset(e) && (e.ResetByConnect? ==> e.connect < |s.connects| && s.connects[e.connect].manual)
  }

  /** After any latch, the next frame comes only after an explicit reset: a
      manual connect or a resume, never an automatic reconnect. */
  lemma FrameNeedsExplicitReset(s: State, i: nat, j: nat)
    requires Reachable(s) && i < j < |s.log| && s.log[i].Latch? && s.log[j].MotionFrame?
    ensures exists k :: i < k < j && IsExplicitReset(s, s.log[k])
  {
    ReachableInv(s);
    assert Justified(s, s.log[j], s.log[..j]);
    LatchHoldsUntilReset(s.log, i, j);
    var k :| i < k < j && IsReset(s.log[k]);
    assert Justified(s, s.log[k], s.log[..k]);
    assert IsExplicitReset(s, s.log[k]);
  }

  /** A bootstrap asks for the lease only on a manual connect whose gate was
      open at `ServerWelcome`, and decides and emits at most once. */
  lemma LeaseOnlyWhenManualAndOpen(s: State, k: nat)
    requires Reachable(s) && k < |s.log| && (s.log[k].LeaseDecision? || s.log[k].LeaseEmission?)
    ensures var i := s.log[k].connect;
      && i < |s.connects| && s.connects[i].manual
      && Count(s.log, LeaseDecision(i)) == 1 && Count(s.log, LeaseEmission(i)) <= 1
      && exists d :: 0 <= d <= k && s.log[d] == LeaseDecision(i) && !GateAfter(s.log[..d])
  {
    ReachableInv(s);
    hide Reachable;
    var i := s.log[k].connect;
    var d := DecidedBefore(s, k);
    assert i < |s.connects|;
    AttemptFacts(s, i);
    hide Inv, Placed, SessionPlaced, GateAfter, Conclusions;
    CountIsMonotone(s.log, d + 1, LeaseDecision(i));
    OccursIsCounted(s.log[..d + 1], d, LeaseDecision(i));
    hide Count;
    assert Count(s.log, LeaseDecision(i)) <= 1 && Count(s.log, LeaseEmission(i)) <= 1;
  }

  /** An emission has its decision before it. */
  lemma DecidedBefore(s: State, k: nat) returns (d: nat)
    requires Inv(s) && k < |s.log| && (s.log[k].LeaseDecision? || s.log[k].LeaseEmission?)
    ensures d <= k && s.log[d] == LeaseDecision(s.log[k].connect) && !GateAfter(s.log[..d])
    ensures s.log[k].connect < |s.connects| && s.connects[s.log[k].connect].manual
  {
    hide Books, Places, GateAfter;
    assert Justified(s, s.log[k], s.log[..k]);
    d := k;
    if s.log[k].LeaseEmission? {
      d := Occurs(s.log[..k], LeaseDecision(s.log[k].connect));
    }
    assert Justified(s, s.log[d], s.log[..d]);
    hide LogInv, Count;
  }

  lemma {:induction false} Occurs(log: seq<Event>, e: Event) returns (d: nat)
    requires Count(log, e) > 0
    ensures d < |log| && log[d] == e
  {
    if log[|log| - 1] == e {
      d := |log| - 1;
    } else {
      d := Occurs(log[..|log| - 1], e);
    }
  }

  lemma {:induction false} CountIsMonotone(log: seq<Event>, n: nat, e: Event)
    requires n <= |log|
    ensures Count(log[..n], e) <= Count(log, e)
    decreases |log|
  {
    if n < |log| {
      var front := log[..|log| - 1];
      assert front[..n] == log[..n];
      CountIsMonotone(front, n, e);
    } else {
      assert log[..n] == log;
    }
  }

  // ---- what becomes of a grant ----------------------------------------------

  /** The attempt's own request was granted, in time or late. */
  predicate OwnGrant(c: Connect) {
    c.request == InTime(true) || (c.request.Late? && c.request.fate != Denied)
  }

  /** The bootstrap came back without the answer to its own request: at a welcome
      that wanted no authority, or at another's response. */
  predicate EndsUnanswered(e: Event, i: nat) {
    (e.UnwantedWelcome? || e.StrayResponse?) && e.connect == i
  }

  /** It did so after that request had gone out. */
  ghost predicate EndedUnanswered(log: seq<Event>, i: nat) {
    exists a, b :: 0 <= a < b < |log| && log[a] == LeaseEmission(i) && EndsUnanswered(log[b], i)
  }

  /** The answer came on the session stream, with no resume pending. */
  ghost predicate AnsweredWithoutAResume(log: seq<Event>, i: nat) {
    exists k :: 0 <= k < |log| && log[k].LateAnswer? && log[k].connect == i && !log[k].pending
  }

  /** How often a grant of the attempt's request was used or given back: at the
      conclusion, when the bootstrap came back with it, or by a resume that took
      it and started or surrendered. */
  function GrantEnds(log: seq<Event>, i: nat): nat {
    (if Count(log, OwnAnswer(i, true)) == 0 then 0 else Conclusions(log, i) - Count(log, Conclusion(i, TelemetryOnly)))
    + Count(log, LateAnswer(i, true, Resumed)) + Count(log, LateAnswer(i, true, Surrendered))
  }

  /** A count of one is an occurrence, with what is known of it. */
  lemma HappenedOnce(s: State, e: Event) returns (k: nat)
    requires LogInv(s) && Count(s.log, e) > 0
    ensures k < |s.log| && s.log[k] == e && Justified(s, e, s.log[..k])
  {
    k := Occurs(s.log, e);
    hide Justified;
  }

  /** How the end of an attempt's bootstrap is recorded. */
  function EndEvent(i: nat, end: End): Event
    requires end.AtWelcome? || end.AtStray?
  {
    if end.AtWelcome? then UnwantedWelcome(i) else StrayResponse(i, end.granted)
  }

  /** An emission is never after the bootstrap's unanswered end, so both mean it
      ended unanswered. */
  lemma EmissionThenEnd(s: State, i: nat)
    requires Inv(s) && i < |s.connects|
    ensures var c := s.connects[i];
      EndedUnanswered(s.log, i) <==> (c.end.AtWelcome? || c.end.AtStray?) && !c.request.NotEmitted?
  {
    hide Inv, Placed, SessionPlaced, GateAfter, Count, Conclusions, EndedUnanswered, LogInv;
    var c := s.connects[i];
    AttemptFacts(s, i);
    LogOf(s);
    if (c.end.AtWelcome? || c.end.AtStray?) && !c.request.NotEmitted? {
      EndAfterEmission(s, i, c);
    } else if EndedUnanswered(s.log, i) {
      EndedIsCounted(s.log, i);
    }
  }

  lemma EndedIsCounted(log: seq<Event>, i: nat)
    requires EndedUnanswered(log, i)
    ensures Count(log, LeaseEmission(i)) > 0 && UnansweredEnds(log, i) > 0
  {
    var a, b :| 0 <= a < b < |log| && log[a] == LeaseEmission(i) && EndsUnanswered(log[b], i);
    OccursIsCounted(log, a, LeaseEmission(i));
    OccursIsCounted(log, b, log[b]);
    hide Count;
  }

  lemma LogOf(s: State)
    requires Inv(s)
    ensures LogInv(s)
  {
    hide Books, Places;
  }

  lemma EndAfterEmission(s: State, i: nat, c: Connect)
    requires LogInv(s) && Booked(c, i, s.log) && (c.end.AtWelcome? || c.end.AtStray?) && !c.request.NotEmitted?
    ensures EndedUnanswered(s.log, i)
  {
    hide LogInv, Count, Conclusions;
    var e := EndEvent(i, c.end);
    EmissionComesFirst(s, i, e);
  }

  lemma EmissionComesFirst(s: State, i: nat, e: Event)
    requires LogInv(s) && EndsUnanswered(e, i) && Count(s.log, e) > 0 && Count(s.log, LeaseEmission(i)) > 0
    ensures EndedUnanswered(s.log, i)
  {
    var a := HappenedOnce(s, LeaseEmission(i));
    var b := HappenedOnce(s, e);
    hide LogInv;
    if b < a {
      assert s.log[..a][b] == e;
      OccursIsCounted(s.log[..a], b, e);
    }
    hide Count;
    assert a < b && s.log[a] == LeaseEmission(i) && EndsUnanswered(s.log[b], i);
  }

  lemma {:induction false} OccursIsCounted(log: seq<Event>, k: nat, e: Event)
    requires k < |log| && log[k] == e
    ensures Count(log, e) > 0
    decreases |log|
  {
    if k < |log| - 1 {
      OccursIsCounted(log[..|log| - 1], k, e);
    }
  }

  /** In every reachable state of every interleaving, the grant of a completed
      attempt's own request has ended exactly once, unless its answer came late
      and no resume was pending then, when it has not ended at all. The answer
      comes late exactly when the bootstrap ended, after its emission, at an
      unwanted welcome or at another's response. A bootstrap that ended otherwise
      concludes its grant in control, unavailable control or a release, a release
      exactly when the gate was latched then. */
  lemma OwnGrantEndsOnceOrIsLeftAlone(s: State, i: nat)
    requires Reachable(s) && i < |s.connects| && s.connects[i].phase.Decided? && OwnGrant(s.connects[i])
    ensures Conclusions(s.log, i) == 1 && GrantEnds(s.log, i) <= 1
    ensures GrantEnds(s.log, i) == 0 <==> EndedUnanswered(s.log, i) && AnsweredWithoutAResume(s.log, i)
    ensures EndedUnanswered(s.log, i) <==> s.connects[i].request.Late?
    ensures EndedUnanswered(s.log, i) ==>
      (s.connects[i].phase == Decided(TelemetryOnly) <==> Count(s.log, StrayResponse(i, true)) == 0)
    ensures !EndedUnanswered(s.log, i) ==> ConcludedGrant(s.log, i, s.connects[i].phase.outcome)
  {
    hide Reachable, Inv, EndedUnanswered, AnsweredWithoutAResume, Conclusions, GrantEnds, ConcludedGrant;
    hide SessionPlaced, Count, GateAfter, Booked;
    ReachableInv(s);
    EmissionThenEnd(s, i);
    AttemptFacts(s, i);
    var c := s.connects[i];
    CountsOf(c, i, s.log);
    LateWithoutAResume(c, i, s.log);
    StrayCount(c, i, s.log);
    hide Placed;
    if c.request.InTime? {
      GrantConcludes(s, i, c);
    }
  }

  lemma StrayCount(c: Connect, i: nat, log: seq<Event>)
    requires Booked(c, i, log)
    ensures Count(log, StrayResponse(i, true)) == One(c.end == AtStray(true))
  {
    hide Count;
  }

  lemma LateWithoutAResume(c: Connect, i: nat, log: seq<Event>)
    requires Booked(c, i, log)
    ensures AnsweredWithoutAResume(log, i) <==> c.request.Late? && !c.request.pending
  {
    if c.request.Late? && !c.request.pending {
      var k := Occurs(log, LateAnswer(i, c.request.pending, c.request.fate));
    }
    if k :| 0 <= k < |log| && log[k].LateAnswer? && log[k].connect == i && !log[k].pending {
      OccursIsCounted(log, k, log[k]);
      assert Count(log, LateAnswer(i, log[k].pending, log[k].fate)) > 0;
    }
    hide Count, Conclusions;
  }

  lemma GrantConcludes(s: State, i: nat, c: Connect)
    requires Inv(s) && Booked(c, i, s.log) && Placed(c) && c.request == InTime(true) && c.phase.Decided?
    ensures ConcludedGrant(s.log, i, c.phase.outcome)
  {
    assert Count(s.log, Conclusion(i, c.phase.outcome)) == 1;
    hide Booked, Books, Places;
    var k := HappenedOnce(s, Conclusion(i, c.phase.outcome));
    hide LogInv, Count, GateAfter;
  }

  /** The grant was concluded with this outcome, on the right side of the gate. */
  ghost predicate ConcludedGrant(log: seq<Event>, i: nat, outcome: Outcome) {
    && outcome != TelemetryOnly
    && exists k ::
      && 0 <= k < |log| && log[k] == Conclusion(i, outcome)
      && (outcome == LeaseReleased <==> GateAfter(log[..k]))
  }

  lemma CountsOf(c: Connect, i: nat, log: seq<Event>)
    requires Booked(c, i, log) && Placed(c) && c.phase.Decided? && OwnGrant(c)
    ensures Conclusions(log, i) == 1
    ensures GrantEnds(log, i) == One(c.request.Late? ==> c.request.pending)
  {
    hide Count;
    assert c.request.Late? ==> Count(log, LateAnswer(i, c.request.pending, c.request.fate)) == 1;
    match c.phase.outcome
    case ControlStarted =>
    case ControlUnavailable =>
    case LeaseReleased =>
    case TelemetryOnly =>
  }

  /** A granted attempt that has not concluded is on its way to it, or was
      superseded: its session is not the active one. */
  lemma UnfinishedGrants(s: State, i: nat)
    requires Reachable(s) && i < |s.connects| && !s.connects[i].phase.Decided? && OwnGrant(s.connects[i])
    ensures s.connects[i].phase.Booted? || s.connects[i].phase.Deciding?
      || (s.connects[i].phase.Gone? && s.active != Some(i))
    ensures Conclusions(s.log, i) == 0
  {
    ReachableInv(s);
    assert Booked(s.connects[i], i, s.log) && Placed(s.connects[i]);
    hide Booked, LogInv, Conclusions;
  }

  /** When the answer to an outstanding request arrives on the session stream, its
      bootstrap had ended at an unwanted welcome or another's response. A grant
      is left alone exactly when no resume of that session is pending; then
      nothing starts and nothing is given back, and the lease stays granted. */
  lemma LateGrantIsLeftAloneWithoutAResume(s: State, i: nat, startSucceeds: bool)
    requires Reachable(s) && i < |s.connects| && Live(s, i) && s.connects[i].request.Outstanding?
    ensures EndedUnanswered(s.log, i)
    ensures ResumeStep(s, SessionLeaseResponse(i, true, true, startSucceeds)).Some?
    ensures TakenOrLeft(s, ResumeStep(s, SessionLeaseResponse(i, true, true, startSucceeds)).value, i)
  {
    ReachableInv(s);
    EmissionThenEnd(s, i);
    AttemptFacts(s, i);
    assert s.connects[i].end.AtWelcome? || s.connects[i].end.AtStray?;
    hide *;
    LateGrantTaken(s, i, startSucceeds);
  }

  predicate TakenOrLeft(s: State, t: State, i: nat) {
    && i < |t.connects| && t.connects[i].request.Late?
    && (t.connects[i].request.fate == LeftAlone <==> s.resumePending != Some(i))
    && (s.resumePending != Some(i) ==>
          t.log == s.log + [LateAnswer(i, false, LeftAlone)] && t.runs == s.runs && t.granted && t.active == s.active)
  }

  lemma LateGrantTaken(s: State, i: nat, startSucceeds: bool)
    requires i < |s.connects| && Live(s, i) && s.connects[i].request.Outstanding?
    ensures ResumeStep(s, SessionLeaseResponse(i, true, true, startSucceeds)).Some?
    ensures TakenOrLeft(s, ResumeStep(s, SessionLeaseResponse(i, true, true, startSucceeds)).value, i)
  {
    var pending := s.resumePending == Some(i);
    var decision := ResumeGrantDecision(pending, true, true, !s.latched);
    var u := AnswerOwn(s, i, pending, FateOf(decision, true, startSucceeds)).(granted := true);
    CompleteLeavesAttempts(u, i, decision, startSucceeds);
    hide CompleteResume;
    if decision == Unrelated {
      CompleteUnrelated(u, i, startSucceeds);
    }
  }

  lemma CompleteUnrelated(s: State, session: nat, startSucceeds: bool)
    ensures CompleteResume(s, session, Unrelated, startSucceeds) == s
  {
  }

  lemma CompleteLeavesAttempts(s: State, session: nat, decision: GrantDecision, startSucceeds: bool)
    ensures CompleteResume(s, session, decision, startSucceeds).connects == s.connects
  {
    SuspendLeavesAttempts(s, session);
    SuspendLeavesAttempts(Record(s.(resumePending := None), Latch), session);
    hide Suspend;
  }

  /** Such a lease is given back by the next loss of focus. */
  lemma BlurGivesBackALiveLease(s: State, i: nat)
    requires Live(s, i) && s.granted
    ensures PageStep(s, Blur).Some? && PageStep(s, Blur).value.log == s.log + [Latch] + [ReleaseAsked(i)]
  {
  }

  lemma {:induction false} RunInTwo(s: State, a: seq<Action>, b: seq<Action>)
    requires Run(s, a).Some?
    ensures Run(s, a + b) == Run(Run(s, a).value, b)
    decreases |a|
  {
    if a == [] {
      assert a + b == b;
    } else {
      assert (a + b)[1..] == a[1..] + b;
      RunInTwo(Step(s, a[0]).value, a[1..], b);
      hide Step;
    }
  }

  lemma RunOne(s: State, a: Action)
    requires Step(s, a).Some?
    ensures Run(s, [a]) == Step(s, a)
  {
    assert [a][1..] == [];
    hide Step;
  }

  lemma ReachOne(s: State, a: Action)
    requires Reachable(s) && Step(s, a).Some?
    ensures Reachable(Step(s, a).value)
  {
    var actions :| Run(INITIAL, actions) == Some(s);
    RunInTwo(INITIAL, actions, [a]);
    RunOne(s, a);
    hide Run, Step;
    assert Run(INITIAL, actions + [a]) == Some(Step(s, a).value);
  }

  /** A conclusion that does not start control gives the grant back exactly when
      its session is still the active one. */
  lemma SurrenderAsksForARelease(s: State, i: nat, startSucceeds: bool)
    requires Reachable(s) && i < |s.connects| && s.connects[i].phase == Deciding(true)
    ensures ConnectStep(s, Decide(i, startSucceeds)).Some?
    ensures var t := ConnectStep(s, Decide(i, startSucceeds)).value;
      && i < |t.connects| && t.connects[i].phase.Decided?
      && var o := t.connects[i].phase.outcome;
      && (s.active != Some(i) ==> o != ControlStarted)
      && t.log == s.log + [Conclusion(i, o)]
                     + if s.active == Some(i) && o != ControlStarted then [ReleaseAsked(i)] else []
  {
    hide Reachable, Inv, Booked, Placed, GateAfter, DecideStep;
    ReachableInv(s);
    AttemptFacts(s, i);
    assert s.active == Some(i) ==> s.connected;
    hide SessionPlaced;
    SurrenderIsLogged(s, i, s.connects[i], startSucceeds);
  }

  lemma SurrenderIsLogged(s: State, i: nat, c: Connect, startSucceeds: bool)
    requires i < |s.connects| && c == s.connects[i] && c.phase == Deciding(true)
      && (s.active == Some(i) ==> s.connected)
    ensures DecideStep(s, i, c, startSucceeds).Some?
    ensures var t := DecideStep(s, i, c, startSucceeds).value;
      && i < |t.connects| && t.connects[i].phase.Decided?
      && var o := t.connects[i].phase.outcome;
      && (s.active != Some(i) ==> o != ControlStarted)
      && t.log == s.log + [Conclusion(i, o)]
                     + if s.active == Some(i) && o != ControlStarted then [ReleaseAsked(i)] else []
  {
  }

  /** An attempt that concluded without control, its grant then left alone. */
  predicate Stranded(s: State) {
    && |s.connects| == 1 && Live(s, 0) && s.granted && s.runs == []
    && s.connects[0].phase == Decided(TelemetryOnly) && s.connects[0].request == Late(false, LeftAlone)
    && GrantEnds(s.log, 0) == 0
  }

  /** It does happen: a manual connect asks at its first welcome, focus is lost,
      a second welcome ends the bootstrap, the attempt concludes without control,
      and then the grant arrives. */
  lemma SecondWelcomeStrandsAGrant() returns (s: State)
    ensures Reachable(s) && Stranded(s)
  {
    var ended := SecondWelcomeEndsTheBootstrap();
    s := GrantAfterTheEnd(ended, AtWelcome);
  }

  /** And with one welcome, no loss of focus and the gate open all along: a
      response of another scope ends the bootstrap before the grant arrives. */
  lemma StrayResponseStrandsAGrant() returns (s: State)
    ensures Reachable(s) && Stranded(s) && !s.latched
    ensures s.log == [ResetByConnect(0), LeaseDecision(0), LeaseEmission(0), StrayResponse(0, false),
                      Conclusion(0, TelemetryOnly), LateAnswer(0, false, LeftAlone)]
  {
    hide Reachable, Stranded;
    var asked := AskAtTheFirstWelcome();
    StrayStep(asked);
    ReachOne(asked, BootstrapLeaseResponse(0, false, false));
    hide Step, EndsOpen;
    s := GrantAfterTheEnd(Step(asked, BootstrapLeaseResponse(0, false, false)).value, AtStray(false));
  }

  lemma StrayStep(s: State)
    requires |s.connects| == 1 && s.active == Some(0) && !s.connected && !s.granted && s.runs == []
    requires s.resumePending == None && s.connects[0] == Connect(true, Reading, true, Open, Outstanding)
    ensures var t := Step(s, BootstrapLeaseResponse(0, false, false));
      t.Some? && EndsOpen(t.value, AtStray(false)) && t.value.latched == s.latched
      && t.value.log == s.log + [StrayResponse(0, false)]
  {
  }

  /** The bootstrap of attempt 0 is over, its request outstanding. */
  predicate EndsOpen(s: State, end: End) {
    && |s.connects| == 1 && s.active == Some(0) && !s.connected && !s.granted && s.runs == [] && s.resumePending == None
    && s.connects[0] == Connect(true, Booted, true, end, Outstanding)
  }

  lemma GrantAfterTheEnd(ended: State, end: End) returns (s: State)
    requires Reachable(ended) && EndsOpen(ended, end)
    ensures Reachable(s) && Stranded(s) && s.latched == ended.latched
    ensures s.log == ended.log + [Conclusion(0, TelemetryOnly)] + [LateAnswer(0, false, LeftAlone)]
  {
    hide Reachable, Step, EndsOpen, Stranded, Live;
    ReturnStep(ended, end);
    ReachOne(ended, BootstrapReturned(0));
    var decided := ConcludeStep(ended, end);
    GrantStep(decided, end);
    ReachOne(decided, SessionLeaseResponse(0, true, true, true));
    s := Step(decided, SessionLeaseResponse(0, true, true, true)).value;
    LeftAloneIsStranded(s, end);
  }

  lemma LeftAloneIsStranded(s: State, end: End)
    requires Reachable(s) && Live(s, 0) && s.granted && s.runs == []
    requires s.connects == [Connect(true, Decided(TelemetryOnly), true, end, Late(false, LeftAlone))]
    ensures Stranded(s)
  {
    hide Reachable, Inv, Booked, Placed, SessionPlaced, GateAfter, GrantEnds, Conclusions;
    ReachableInv(s);
    AttemptFacts(s, 0);
    CountsOf(s.connects[0], 0, s.log);
  }

  function AfterEnd(s: State, phase: Phase, end: End): State {
    s.(connects := [Connect(true, phase, true, end, Outstanding)], connected := true)
  }

  lemma ReturnStep(s: State, end: End)
    requires EndsOpen(s, end)
    ensures Step(s, BootstrapReturned(0)) == Some(AfterEnd(s, Deciding(false), end))
  {
    var c := Connect(true, Deciding(false), true, end, Outstanding);
    assert s.connects[0 := c] == [c];
  }

  lemma ConcludeStep(s: State, end: End) returns (t: State)
    requires Reachable(AfterEnd(s, Deciding(false), end)) && EndsOpen(s, end)
    ensures t == Record(AfterEnd(s, Decided(TelemetryOnly), end), Conclusion(0, TelemetryOnly)) && Reachable(t)
    ensures Live(t, 0) && t.resumePending == None && t.runs == []
  {
    hide Reachable;
    t := Record(AfterEnd(s, Decided(TelemetryOnly), end), Conclusion(0, TelemetryOnly));
    var u := AfterEnd(s, Deciding(false), end);
    assert u.connects[0 := t.connects[0]] == t.connects;
    assert Step(u, Decide(0, true)) == Some(t);
    hide Step;
    ReachOne(u, Decide(0, true));
  }

  lemma GrantStep(s: State, end: End)
    requires s.connects == [Connect(true, Decided(TelemetryOnly), true, end, Outstanding)]
    requires Live(s, 0) && s.resumePending == None
    ensures var t := Step(s, SessionLeaseResponse(0, true, true, true));
      t.Some? && t.value == Record(s, LateAnswer(0, false, LeftAlone)).(
        connects := [Connect(true, Decided(TelemetryOnly), true, end, Late(false, LeftAlone))], granted := true)
      && Live(t.value, 0)
  {
  }

  lemma SecondWelcomeEndsTheBootstrap() returns (s: State)
    ensures Reachable(s) && EndsOpen(s, AtWelcome)
  {
    assert Run(INITIAL, []) == Some(INITIAL);
    var asked := AskAtTheFirstWelcome();
    var blurred := Step(asked, Blur).value;
    ReachOne(asked, Blur);
    s := Step(blurred, ServerWelcome(0)).value;
    ReachOne(blurred, ServerWelcome(0));
    hide Reachable;
  }

  lemma AskAtTheFirstWelcome() returns (s: State)
    ensures Reachable(s) && |s.connects| == 1 && s.active == Some(0) && !s.connected && !s.granted && s.runs == []
      && s.resumePending == None && s.currentRun == None
    ensures s.connects[0] == Connect(true, Reading, true, Open, Outstanding) && !s.latched
    ensures s.log == [ResetByConnect(0), LeaseDecision(0), LeaseEmission(0)]
  {
    var reading := ReadAfterOpening();
    var emitting := Step(reading, ServerWelcome(0)).value;
    ReachOne(reading, ServerWelcome(0));
    s := Step(emitting, LeaseSent(0, true, true)).value;
    ReachOne(emitting, LeaseSent(0, true, true));
    hide Reachable;
  }

  lemma ReadAfterOpening() returns (s: State)
    ensures Reachable(s) && |s.connects| == 1 && s.active == Some(0) && !s.connected && !s.granted && s.runs == []
      && s.resumePending == None && s.currentRun == None
    ensures s.connects[0] == Connect(true, Reading, false, Open, NotEmitted) && !s.latched
      && s.log == [ResetByConnect(0)]
  {
    assert Run(INITIAL, []) == Some(INITIAL);
    var settling := Step(INITIAL, RequestConnect).value;
    ReachOne(INITIAL, RequestConnect);
    var opening := Step(settling, ReleasesSettled(0)).value;
    ReachOne(settling, ReleasesSettled(0));
    s := Step(opening, StreamReady(0, true)).value;
    ReachOne(opening, StreamReady(0, true));
    hide Reachable;
  }

  /** A conclusion, once reached, is the only one for ever. */
  lemma {:induction false} ConclusionIsFinal(s: State, actions: seq<Action>, i: nat)
    requires Inv(s) && Run(s, actions).Some? && i < |s.connects| && s.connects[i].phase.Decided?
    ensures var t := Run(s, actions).value;
      i < |t.connects| && t.connects[i].phase == s.connects[i].phase && Conclusions(t.log, i) == 1
    decreases |actions|
  {
    if actions == [] {
      assert Booked(s.connects[i], i, s.log);
    } else {
      StepKeepsInv(s, actions[0]);
      DecidedStays(s, actions[0], i);
      hide Step, Inv;
      ConclusionIsFinal(Step(s, actions[0]).value, actions[1..], i);
    }
  }

  lemma DecidedStays(s: State, a: Action, i: nat)
    requires Step(s, a).Some? && i < |s.connects| && s.connects[i].phase.Decided?
    ensures i < |Step(s, a).value.connects| && Step(s, a).value.connects[i].phase == s.connects[i].phase
  {
    PageLeavesDecided(s, a, i);
    ConnectLeavesDecided(s, a, i);
    ResumeLeavesDecided(s, a, i);
    RunLeavesConnects(s, a);
    hide PageStep, ConnectStep, ResumeStep, RunStep;
  }

  lemma PageLeavesDecided(s: State, a: Action, i: nat)
    requires i < |s.connects|
    ensures PageStep(s, a).Some? ==>
      i < |PageStep(s, a).value.connects| && PageStep(s, a).value.connects[i] == s.connects[i]
  {
  }

  lemma ConnectLeavesDecided(s: State, a: Action, i: nat)
    requires i < |s.connects| && s.connects[i].phase.Decided?
    ensures ConnectStep(s, a).Some? ==>
      i < |ConnectStep(s, a).value.connects| && ConnectStep(s, a).value.connects[i] == s.connects[i]
  {
    if ConnectStep(s, a).Some? {
      OnlyOwnAttempt(s, ConnectOf(a).value, s.connects[ConnectOf(a).value], a);
    }
    hide AttemptStep;
  }

  lemma OnlyOwnAttempt(s: State, i: nat, c: Connect, a: Action)
    requires i < |s.connects| && c == s.connects[i]
    ensures AttemptStep(s, i, c, a).Some? ==>
      && |AttemptStep(s, i, c, a).value.connects| == |s.connects|
      && (c.phase.Decided? ==> false)
      && forall j :: 0 <= j < |s.connects| && j != i ==> AttemptStep(s, i, c, a).value.connects[j] == s.connects[j]
  {
  }

  lemma SuspendLeavesAttempts(s: State, session: nat)
    ensures Suspend(s, session).connects == s.connects && |Suspend(s, session).runs| == |s.runs|
  {
  }

  lemma ResumeLeavesDecided(s: State, a: Action, i: nat)
    requires i < |s.connects|
    ensures ResumeStep(s, a).Some? ==>
      && i < |ResumeStep(s, a).value.connects|
      && ResumeStep(s, a).value.connects[i].phase == s.connects[i].phase
  {
    hide CompleteResume, FateOf, AskRelease, AnswerOwn;
    AskReleaseLeavesConnects();
    if a.SessionLeaseResponse? && Live(s, a.session) && (a.own ==> IsOutstanding(s, a.session)) {
      var pending := s.resumePending == Some(a.session);
      var decision := ResumeGrantDecision(pending, a.grants, true, !s.latched);
      var fate := FateOf(decision, a.grants, a.startSucceeds);
      if a.own {
        AnswerLeavesPhases(s, a.session, pending, fate, i);
      }
      var t := if a.own then AnswerOwn(s, a.session, pending, fate) else s;
      hide ResumeGrantDecision;
      CompleteLeavesAttempts(t.(granted := a.grants), a.session, decision, a.startSucceeds);
    }
  }

  lemma AnswerLeavesPhases(s: State, session: nat, pending: bool, fate: Fate, i: nat)
    requires session < |s.connects| && i < |s.connects|
    ensures i < |AnswerOwn(s, session, pending, fate).connects|
    ensures AnswerOwn(s, session, pending, fate).connects[i].phase == s.connects[i].phase
  {
  }

  lemma AskReleaseLeavesConnects()
    ensures forall t: State, session :: AskRelease(t, session).connects == t.connects
  {
  }

  lemma RunLeavesConnects(s: State, a: Action)
    ensures RunStep(s, a).Some? ==> RunStep(s, a).value.connects == s.connects && |RunStep(s, a).value.runs| == |s.runs|
  {
    hide Suspend, EndRun;
    if a.WakeRun? && a.run < |s.runs| {
      var session := s.runs[a.run].session;
      SuspendLeavesAttempts(s, session);
      SuspendLeavesAttempts(Record(s, Latch), session);
      EndRunLeavesAttempts(Suspend(s, session), a.run);
      EndRunLeavesAttempts(Suspend(Record(s, Latch), session), a.run);
    }
    if a.WakeRun? || a.IntervalElapsed? {
      EndRunLeavesAttempts(s, a.run);
    }
  }

  lemma EndRunLeavesAttempts(s: State, r: nat)
    ensures EndRun(s, r).connects == s.connects && |EndRun(s, r).runs| == |s.runs|
  {
  }

  /** A control run starts only while the gate is open: at the conclusion of a
      connect, or when the live session grants its pending resume. */
  lemma RunsStartOnlyOpen(s: State, a: Action)
    requires Step(s, a).Some? && |Step(s, a).value.runs| > |s.runs|
    ensures !s.latched && s.active.Some?
    ensures (a.Decide? && a.connect < |s.connects| && s.connects[a.connect].phase == Deciding(true))
         || (a.SessionLeaseResponse? && s.resumePending == s.active && a.grants)
  {
    ConnectStartsRun(s, a);
    ResumeStartsRun(s, a);
    PageStartsNone(s, a);
    RunLeavesConnects(s, a);
    hide PageStep, ConnectStep, ResumeStep, RunStep;
  }

  lemma ConnectStartsRun(s: State, a: Action)
    ensures ConnectStep(s, a).Some? && |ConnectStep(s, a).value.runs| > |s.runs| ==>
      a.Decide? && a.connect < |s.connects| && s.connects[a.connect].phase == Deciding(true) && !s.latched
        && s.active == Some(a.connect)
  {
  }

  lemma ResumeStartsRun(s: State, a: Action)
    ensures ResumeStep(s, a).Some? && |ResumeStep(s, a).value.runs| > |s.runs| ==>
      a.SessionLeaseResponse? && s.resumePending == s.active == Some(a.session) && a.grants && !s.latched
  {
  }

  lemma PageStartsNone(s: State, a: Action)
    ensures PageStep(s, a).Some? ==> |PageStep(s, a).value.runs| == |s.runs|
  {
  }
}
