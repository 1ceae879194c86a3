/** The DJI USB owner protocol: adapters/dji-usb/src/worker.rs and connection.rs
    as one step system. Each action below is one step of the worker thread or of
    the client between two points where the other may run; the clock only moves
    forward. */
module UsbOwner {
  import opened Wrappers
  import opened Bytes

  const CHUNK_BYTES := 16384
  const RECEIVE_CHUNKS := 64
  const WRITE_BUDGET := 50_000_000
  const WRITE_WAIT := 100_000_000

  // ---- state ----------------------------------------------------------------

  datatype Failure = Expired | Late | Native | Overflow | Oversize | OutcomeUnknown

  datatype Request = Request(id: nat, bytes: seq<byte>, sendBefore: int, submittedAt: int, deadline: int)

  datatype WriteResult = Wrote(count: nat) | Refused(failure: Failure)

  /** Where the worker goes once `Status::fail` has returned. */
  datatype After = ToLoop | ToReceipt(request: Request)

  datatype Worker =
    | Opening
    | LoopHead
    | Taken(request: Request)
    | NotExpired(request: Request)
    | Writing(request: Request)
    | Written(request: Request)
    | Failing(failure: Failure, after: After)
    | Stopped(failure: Failure, after: After)
    | Answering(request: Request, result: WriteResult)
    | BeforePoll
    | Polling
    | Receiving(chunk: seq<byte>)
    | Closing
    | Ended

  datatype Client =
    | Starting
    | Idle
    | Receive(room: nat)
    | Copy(room: nat)
    | Timing(bytes: seq<byte>, sendBefore: int)
    | Submitting(bytes: seq<byte>, sendBefore: int, now: int, deadline: int)
    | Waiting(id: nat, since: int)
    | GivingUp(id: nat)
    | GaveUp(id: nat)
    | Gone

  /** What a `try_write_until` that reached the queue returned. */
  datatype Outcome = Ok(id: nat, count: nat) | Failed(id: nat) | WouldBlock

  /** The 64-slot receive channel, the connection's current chunk, and the
      history of what the device gave and the caller got. */
  datatype Reads = Reads(
    queue: seq<seq<byte>>,
    pending: seq<byte>,
    offset: nat,
    polled: seq<seq<byte>>,
    queued: seq<seq<byte>>,
    returned: seq<byte>)

  /** The 1-slot write channel, the receipts, and the history of submissions,
      device calls, their finishing times and the callers' outcomes. */
  datatype Writes = Writes(
    slot: Option<Request>,
    receipts: map<nat, WriteResult>,
    submitted: seq<Request>,
    deviceCalls: seq<nat>,
    finishedAt: map<nat, int>,
    outcomes: seq<Outcome>)

  datatype State = State(
    clock: int,
    stopping: bool,
    failure: Option<Failure>,
    started: Option<bool>,
    worker: Worker,
    client: Client,
    input: Reads,
    writes: Writes)

  const INITIAL := State(0, false, None, None, Opening, Starting, Reads([], [], 0, [], [], []),
                         Writes(None, map[], [], [], map[], []))

  datatype Action =
    | Tick(elapsed: nat)
    // Worker.
    | Open(ok: bool)
    | Loop
    | CheckExpiry
    | CheckStopped
    | DeviceWrote(ok: bool)
    | CheckLate
    | SetStopping
    | SetFailure
    | Answer
    | CheckBeforePoll
    | PollNothing
    | PollChunk(chunk: seq<byte>)
    | PollError
    | Enqueue
    | Close
    // Client.
    | Started
    | StartTimedOut
    | Read(room: nat)
    | Dequeue
    | CheckAndCopy
    | Write(bytes: seq<byte>, sendBefore: int)
    | ReadClock
    | Submit
    | TakeReceipt
    | StopWaiting
    | GiveUp
    | LatchUnknown
    | StopAndDrop

  /** `Status::check`: both of its reads pass exactly when no one has stopped. */
  predicate Checks(s: State) {
    s.failure.None? && !s.stopping
  }

  // ---- steps ----------------------------------------------------------------

  /** `Status::fail`, second half: only the first failure is kept. */
  function Latch(s: State, f: Failure): State {
    s.(failure := if s.failure.None? then Some(f) else s.failure)
  }

  /** Worker steps up to the receipt of a write. */
  function WorkerStep(s: State, a: Action): Option<State> {
    match (a, s.worker)
    case (Open(true), Opening) =>
      Some(s.(worker := LoopHead, started := Some(true), stopping := s.stopping || s.client.Gone?))
    case (Open(false), Opening) =>
      Some(s.(worker := Ended, started := Some(false), stopping := true))
    case (Loop, LoopHead) =>
      if s.stopping then Some(s.(worker := Closing))
      else if s.writes.slot.Some? then
        Some(s.(worker := Taken(s.writes.slot.value), writes := s.writes.(slot := None)))
      else if s.client.Gone? then Some(s.(worker := BeforePoll, stopping := true))
      else Some(s.(worker := BeforePoll))
    case (CheckExpiry, Taken(r)) =>
      if s.clock >= r.deadline then Some(s.(worker := Failing(Expired, ToReceipt(r))))
      else Some(s.(worker := NotExpired(r)))
    case (CheckStopped, NotExpired(r)) =>
      if s.stopping then Some(s.(worker := Failing(Expired, ToReceipt(r))))
      else Some(s.(worker := Writing(r), writes := s.writes.(deviceCalls := s.writes.deviceCalls + [r.id])))
    case (DeviceWrote(ok), Writing(r)) =>
      if ok then Some(s.(worker := Written(r), writes := s.writes.(finishedAt := s.writes.finishedAt[r.id := s.clock])))
      else Some(s.(worker := Failing(Native, ToReceipt(r))))
    case (CheckLate, Written(r)) =>
      if s.clock >= r.deadline then Some(s.(worker := Failing(Late, ToReceipt(r))))
      else Some(s.(worker := Answering(r, Wrote(|r.bytes|))))
    case (SetStopping, Failing(f, after)) =>
      Some(s.(worker := Stopped(f, after), stopping := true))
    case (SetFailure, Stopped(f, after)) =>
      Some(Latch(s, f).(worker := if after.ToLoop? then LoopHead else Answering(after.request, Refused(f))))
    case (Answer, Answering(r, result)) =>
      Some(s.(worker := BeforePoll, writes := s.writes.(receipts := s.writes.receipts[r.id := result])))
    case _ => None
  }

  /** Worker steps that poll the device and queue what it gave. */
  function PollStep(s: State, a: Action): Option<State> {
    match (a, s.worker)
    case (CheckBeforePoll, BeforePoll) =>
      Some(s.(worker := if s.stopping then LoopHead else Polling))
    case (PollNothing, Polling) => Some(s.(worker := LoopHead))
    case (PollError, Polling) => Some(s.(worker := Failing(Native, ToLoop)))
    case (PollChunk(chunk), Polling) =>
      if chunk == [] then Some(s.(worker := LoopHead))
      else Some(s.(worker := Receiving(chunk), input := s.input.(polled := s.input.polled + [chunk])))
    case (Enqueue, Receiving(chunk)) =>
      if |chunk| > CHUNK_BYTES then Some(s.(worker := Failing(Oversize, ToLoop)))
      else if s.client.Gone? then Some(s.(worker := LoopHead, stopping := true))
      else if |s.input.queue| >= RECEIVE_CHUNKS then Some(s.(worker := Failing(Overflow, ToLoop)))
      else
        var input := s.input.(queue := s.input.queue + [chunk], queued := s.input.queued + [chunk]);
        Some(s.(worker := LoopHead, input := input))
    case (Close, Closing) => Some(s.(worker := Ended))
    case _ => None
  }

  /** Client steps outside a write: starting, `try_read`, dropping. */
  function ReadStep(s: State, a: Action): Option<State> {
    var r := s.input;
    match (a, s.client)
    case (Started, Starting) =>
      if s.started.None? then None
      else if s.started.value then Some(s.(client := Idle))
      else Some(s.(client := Gone, stopping := true))
    case (StartTimedOut, Starting) => Some(s.(client := Gone, stopping := true))
    case (Read(room), Idle) =>
      if !Checks(s) || room == 0 then Some(s)
      else if r.offset == |r.pending| then Some(s.(client := Receive(room)))
      else Some(s.(client := Copy(room)))
    case (Dequeue, Receive(room)) =>
      if r.queue == [] then Some(s.(client := Idle))
      else Some(s.(client := Copy(room), input := r.(pending := r.queue[0], queue := r.queue[1..], offset := 0)))
    case (CheckAndCopy, Copy(room)) =>
      if !Checks(s) || r.offset > |r.pending| then Some(s.(client := Idle))
      else
        var end := r.offset + Min(room, |r.pending| - r.offset);
        Some(s.(client := Idle, input := r.(returned := r.returned + r.pending[r.offset..end], offset := end)))
    case (StopAndDrop, Idle) => Some(s.(client := Gone, stopping := true))
    case _ => None
  }

  /** Client steps of `try_write_until`. */
  function WriteStep(s: State, a: Action): Option<State> {
    var w := s.writes;
    match (a, s.client)
    case (Write(bytes, sendBefore), Idle) =>
      if !Checks(s) || |bytes| == 0 || |bytes| > CHUNK_BYTES then Some(s)
      else Some(s.(client := Timing(bytes, sendBefore)))
    case (ReadClock, Timing(bytes, sendBefore)) =>
      var deadline := Min(sendBefore, s.clock + WRITE_BUDGET);
      if s.clock >= deadline then Some(s.(client := Idle))
      else Some(s.(client := Submitting(bytes, sendBefore, s.clock, deadline)))
    case (Submit, Submitting(bytes, sendBefore, now, deadline)) =>
      if s.worker.Ended? then Some(s.(client := Idle))
      else if w.slot.Some? then Some(s.(client := Idle, writes := w.(outcomes := w.outcomes + [WouldBlock])))
      else
        var r := Request(|w.submitted|, bytes, sendBefore, s.clock, deadline);
        Some(s.(client := Waiting(r.id, s.clock), writes := w.(slot := Some(r), submitted := w.submitted + [r])))
    case (TakeReceipt, Waiting(id, _)) =>
      if id !in w.receipts then None
      else
        var outcome := if w.receipts[id].Wrote? then Ok(id, w.receipts[id].count) else Failed(id);
        Some(s.(client := Idle, writes := w.(outcomes := w.outcomes + [outcome])))
    case (StopWaiting, Waiting(id, since)) =>
      if s.clock >= since + WRITE_WAIT || (s.worker.Ended? && id !in w.receipts)
      then Some(s.(client := GivingUp(id))) else None
    case (GiveUp, GivingUp(id)) => Some(s.(client := GaveUp(id), stopping := true))
    case (LatchUnknown, GaveUp(id)) =>
      Some(Latch(s, OutcomeUnknown).(client := Idle, writes := w.(outcomes := w.outcomes + [Failed(id)])))
    case _ => None
  }

  /** One step of either process, or of time; None when it is not enabled. */
  function Step(s: State, a: Action): Option<State> {
    if a.Tick? then Some(s.(clock := s.clock + a.elapsed))
    else if WorkerStep(s, a).Some? then WorkerStep(s, a)
    else if PollStep(s, a).Some? then PollStep(s, a)
    else if ReadStep(s, a).Some? then ReadStep(s, a)
    else WriteStep(s, a)
  }

  /** Any interleaving: a sequence of enabled steps. */
  function Run(s: State, actions: seq<Action>): Option<State>
    decreases |actions|
  {
    if actions == [] then Some(s)
    else match Step(s, actions[0])
      case None => None
      case Some(next) => Run(next, actions[1..])
  }

  // ---- bytes: the invariant -------------------------------------------------

  /** Returned, still in the connection, and queued: together the bytes that
      entered the queue, in order. */
  ghost predicate Continuous(r: Reads) {
    && r.offset <= |r.pending| <= CHUNK_BYTES
    && r.returned + r.pending[r.offset..] + Concat(r.queue) == Concat(r.queued)
    && |r.queue| <= RECEIVE_CHUNKS
    && (forall i :: 0 <= i < |r.queue| ==> 0 < |r.queue[i]| <= CHUNK_BYTES)
  }

  predicate OnTheWayOut(s: State) {
    || (s.worker.Failing? && s.worker.after.ToLoop?)
    || (s.stopping && s.worker.Stopped? && s.worker.after.ToLoop?)
    || (s.stopping && (s.worker.LoopHead? || s.worker.Closing? || s.worker.Ended?))
  }

  predicate MissesOne(r: Reads) {
    |r.polled| > 0 && r.queued == r.polled[..|r.polled| - 1] && r.polled[|r.polled| - 1] != []
  }

  /** At most the last polled chunk is missing from the queue's history, and
      then the worker holds it or is on its way out. */
  predicate PollsInOrder(s: State) {
    if s.worker.Receiving? then
      MissesOne(s.input) && s.worker.chunk == s.input.polled[|s.input.polled| - 1]
    else s.input.polled == s.input.queued || (MissesOne(s.input) && OnTheWayOut(s))
  }

  predicate ReaderPlaced(s: State) {
    && (s.client.Copy? ==> s.input.offset < |s.input.pending|)
    && (s.client.Receive? ==> s.input.offset == |s.input.pending|)
  }

  ghost predicate ReadInv(s: State) {
    Continuous(s.input) && PollsInOrder(s) && ReaderPlaced(s)
  }

  // ---- writes: the invariant ------------------------------------------------

  /** The request the worker has in hand. */
  function InHand(w: Worker): Option<Request> {
    match w
    case Taken(r) => Some(r)
    case NotExpired(r) => Some(r)
    case Writing(r) => Some(r)
    case Written(r) => Some(r)
    case Failing(_, ToReceipt(r)) => Some(r)
    case Stopped(_, ToReceipt(r)) => Some(r)
    case Answering(r, _) => Some(r)
    case _ => None
  }

  predicate WellFormedRequest(r: Request) {
    && 0 < |r.bytes| <= CHUNK_BYTES
    && r.deadline <= r.sendBefore && r.deadline <= r.submittedAt + WRITE_BUDGET
  }

  predicate FinishedInTime(w: Writes, r: Request) {
    r.id in w.finishedAt && w.finishedAt[r.id] < r.deadline && r.id in w.deviceCalls
  }

  /** The newest request, not yet answered: the only one that can be anywhere. */
  predicate IsOpen(w: Writes, r: Request) {
    |w.submitted| > 0 && r == w.submitted[|w.submitted| - 1] && r.id !in w.receipts
  }

  /** Facts about the channels and histories alone. */
  ghost predicate Books(w: Writes) {
    && (forall i :: 0 <= i < |w.submitted| ==> w.submitted[i].id == i && WellFormedRequest(w.submitted[i]))
    && (forall id | id in w.receipts :: id < |w.submitted|)
    && (forall id | id in w.receipts && w.receipts[id].Wrote? ::
          w.receipts[id].count == |w.submitted[id].bytes| && FinishedInTime(w, w.submitted[id]))
    && (forall i, j :: 0 <= i < j < |w.deviceCalls| ==> w.deviceCalls[i] < w.deviceCalls[j])
    && (forall i :: 0 <= i < |w.deviceCalls| ==> w.deviceCalls[i] < |w.submitted|)
    && (w.slot.Some? ==> IsOpen(w, w.slot.value) && w.slot.value.id !in w.deviceCalls)
    && (forall i :: 0 <= i < |w.outcomes| ==> !w.outcomes[i].WouldBlock?)
    && (forall i :: 0 <= i < |w.outcomes| && w.outcomes[i].Ok? ==>
          w.outcomes[i].id in w.receipts && w.receipts[w.outcomes[i].id] == Wrote(w.outcomes[i].count))
  }

  /** Where the worker stands with the request in its hand. */
  ghost predicate WorkerPlaced(s: State) {
    && (InHand(s.worker).Some? ==> IsOpen(s.writes, InHand(s.worker).value) && s.writes.slot.None?)
    && (s.worker.Taken? || s.worker.NotExpired? ==> s.worker.request.id !in s.writes.deviceCalls)
    && (s.worker.Writing? || s.worker.Written? ==> s.worker.request.id in s.writes.deviceCalls)
    && (s.worker.Written? ==>
          s.worker.request.id in s.writes.finishedAt && s.writes.finishedAt[s.worker.request.id] <= s.clock)
    && (s.worker.Stopped? ==> s.stopping)
    && (s.worker.Answering? && s.worker.result.Wrote? ==>
          s.worker.result.count == |s.worker.request.bytes| && FinishedInTime(s.writes, s.worker.request))
    && (s.worker.Answering? && s.worker.result.Refused? ==> s.failure.Some?)
  }

  predicate InWrite(c: Client) {
    c.Waiting? || c.GivingUp? || c.GaveUp?
  }

  function WriteId(c: Client): nat
    requires InWrite(c)
  {
    match c case Waiting(id, _) => id case GivingUp(id) => id case GaveUp(id) => id
  }

  ghost predicate HasFailed(w: Writes) {
    exists i :: 0 <= i < |w.outcomes| && w.outcomes[i].Failed?
  }

  ghost predicate AnsweredBelow(w: Writes, n: int) {
    forall id: nat :: id < n ==> id in w.receipts
  }

  /** Where the client stands: between writes everything submitted has been
      answered, unless a failed outcome has latched the connection for good. */
  ghost predicate ClientPlaced(s: State) {
    && (s.client.Timing? ==> 0 < |s.client.bytes| <= CHUNK_BYTES)
    && (s.client.Submitting? ==>
          && s.client.now <= s.clock && 0 < |s.client.bytes| <= CHUNK_BYTES
          && s.client.deadline <= s.client.sendBefore && s.client.deadline <= s.client.now + WRITE_BUDGET)
    && (if InWrite(s.client) then
          !HasFailed(s.writes) && WriteId(s.client) == |s.writes.submitted| - 1
            && AnsweredBelow(s.writes, |s.writes.submitted| - 1)
        else if HasFailed(s.writes) then !s.client.Timing? && !s.client.Submitting?
        else AnsweredBelow(s.writes, |s.writes.submitted|))
    && (s.client.GaveUp? ==> s.stopping)
  }

  /** Failure is sticky, implies stopping, and follows every refusal. */
  ghost predicate Latched(s: State) {
    && (s.failure.Some? ==> s.stopping)
    && (HasFailed(s.writes) ==> s.failure.Some?)
    && (forall id | id in s.writes.receipts && s.writes.receipts[id].Refused? :: s.failure.Some?)
  }

  ghost predicate WriteInv(s: State) {
    Books(s.writes) && WorkerPlaced(s) && ClientPlaced(s) && Latched(s)
  }

  // ---- bytes: every step keeps it -------------------------------------------

  lemma {:induction false} ConcatSnoc<T>(parts: seq<seq<T>>, last: seq<T>)
    ensures Concat(parts + [last]) == Concat(parts) + last
  {
    ConcatAppend(parts, [last]);
    assert Concat([last]) == last;
  }

  lemma WorkerKeepsReads(s: State, a: Action)
    requires ReadInv(s) && WorkerStep(s, a).Some?
    ensures ReadInv(WorkerStep(s, a).value)
  {
    hide Continuous;
  }

  lemma PollKeepsReads(s: State, a: Action)
    requires ReadInv(s) && PollStep(s, a).Some?
    ensures ReadInv(PollStep(s, a).value)
  {
    var t := PollStep(s, a).value;
    if a.Enqueue? && t.input != s.input {
      EnqueueIsContinuous(s.input, s.worker.chunk);
    }
    PollsStayInOrder(s, a);
    hide Continuous;
    assert Continuous(t.input);
  }

  lemma EnqueueIsContinuous(r: Reads, chunk: seq<byte>)
    requires Continuous(r) && 0 < |chunk| <= CHUNK_BYTES && |r.queue| < RECEIVE_CHUNKS
    ensures Continuous(r.(queue := r.queue + [chunk], queued := r.queued + [chunk]))
  {
    ConcatSnoc(r.queue, chunk);
    ConcatSnoc(r.queued, chunk);
    assert r.returned + r.pending[r.offset..] + (Concat(r.queue) + chunk) == Concat(r.queued) + chunk;
  }

  lemma PollsStayInOrder(s: State, a: Action)
    requires PollsInOrder(s) && PollStep(s, a).Some?
    ensures PollsInOrder(PollStep(s, a).value)
  {
    var t := PollStep(s, a).value;
    if a.PollChunk? && t.input != s.input {
      assert t.input.polled[..|t.input.polled| - 1] == s.input.polled;
    }
  }

  lemma ReadKeepsReads(s: State, a: Action)
    requires ReadInv(s) && ReadStep(s, a).Some?
    ensures ReadInv(ReadStep(s, a).value)
  {
    var r, t := s.input, ReadStep(s, a).value;
    if t.input != r {
      if a.Dequeue? {
        DequeueIsContinuous(r);
      } else {
        CopyIsContinuous(r, t.input.offset);
      }
    }
    hide Continuous;
    assert Continuous(t.input);
  }

  lemma DequeueIsContinuous(r: Reads)
    requires Continuous(r) && r.offset == |r.pending| && r.queue != []
    ensures Continuous(r.(pending := r.queue[0], queue := r.queue[1..], offset := 0))
  {
    assert r.pending[r.offset..] == [] && r.queue[0][0..] == r.queue[0];
    assert r.returned + [] + (r.queue[0] + Concat(r.queue[1..])) == r.returned + r.queue[0] + Concat(r.queue[1..]);
  }

  lemma CopyIsContinuous(r: Reads, end: nat)
    requires Continuous(r) && r.offset <= end <= |r.pending|
    ensures Continuous(r.(returned := r.returned + r.pending[r.offset..end], offset := end))
  {
    assert r.pending[r.offset..] == r.pending[r.offset..end] + r.pending[end..];
    assert r.returned + (r.pending[r.offset..end] + r.pending[end..]) + Concat(r.queue)
        == (r.returned + r.pending[r.offset..end]) + r.pending[end..] + Concat(r.queue);
  }

  lemma WriteKeepsReads(s: State, a: Action)
    requires ReadInv(s) && WriteStep(s, a).Some?
    ensures ReadInv(WriteStep(s, a).value)
  {
    hide Continuous;
  }

  // ---- writes: every step keeps it ------------------------------------------

  lemma WorkerKeepsBooks(s: State, a: Action)
    requires WriteInv(s) && WorkerStep(s, a).Some?
    ensures Books(WorkerStep(s, a).value.writes)
  {
    hide ClientPlaced, Latched, HasFailed, AnsweredBelow;
  }

  lemma WorkerStaysPlaced(s: State, a: Action)
    requires WriteInv(s) && WorkerStep(s, a).Some?
    ensures WorkerPlaced(WorkerStep(s, a).value)
  {
    hide ClientPlaced, Latched, HasFailed, AnsweredBelow;
  }

  lemma WorkerKeepsClient(s: State, a: Action)
    requires WriteInv(s) && WorkerStep(s, a).Some?
    ensures ClientPlaced(WorkerStep(s, a).value)
  {
    hide Books, WorkerPlaced;
  }

  lemma WorkerKeepsLatch(s: State, a: Action)
    requires WriteInv(s) && WorkerStep(s, a).Some?
    ensures Latched(WorkerStep(s, a).value)
  {
    hide Books, ClientPlaced;
  }

  lemma PollKeepsWrites(s: State, a: Action)
    requires WriteInv(s) && PollStep(s, a).Some?
    ensures WriteInv(PollStep(s, a).value)
  {
    hide Books, HasFailed, AnsweredBelow;
  }

  lemma ReadKeepsWrites(s: State, a: Action)
    requires WriteInv(s) && ReadStep(s, a).Some?
    ensures WriteInv(ReadStep(s, a).value)
  {
    hide Books, HasFailed, AnsweredBelow;
  }

  lemma RecordedOutcome(w: Writes, o: Outcome)
    ensures HasFailed(w.(outcomes := w.outcomes + [o])) <==> HasFailed(w) || o.Failed?
  {
    var t := w.(outcomes := w.outcomes + [o]);
    if o.Failed? {
      assert t.outcomes[|w.outcomes|].Failed?;
    }
    if HasFailed(w) {
      var i :| 0 <= i < |w.outcomes| && w.outcomes[i].Failed?;
      assert t.outcomes[i].Failed?;
    }
  }

  /** The write slot is empty whenever a request is submitted. */
  lemma SlotIsEmptyAtSubmit(s: State)
    requires WriteInv(s) && s.client.Submitting?
    ensures s.writes.slot.None? && InHand(s.worker).None?
  {
    var last := |s.writes.submitted| - 1;
    assert last >= 0 ==> s.writes.submitted[last].id == last;
  }

  lemma SubmitKeepsBooks(s: State)
    requires WriteInv(s) && s.client.Submitting? && WriteStep(s, Submit).Some?
    ensures Books(WriteStep(s, Submit).value.writes)
  {
    SlotIsEmptyAtSubmit(s);
  }

  lemma OutcomeKeepsBooks(s: State, a: Action)
    requires WriteInv(s) && (a.TakeReceipt? || a.LatchUnknown?) && WriteStep(s, a).Some?
    ensures Books(WriteStep(s, a).value.writes)
  {
    hide WorkerPlaced, ClientPlaced, Latched, HasFailed, AnsweredBelow;
  }

  lemma WriteKeepsBooks(s: State, a: Action)
    requires WriteInv(s) && WriteStep(s, a).Some?
    ensures Books(WriteStep(s, a).value.writes)
  {
    hide Books;
    match a
    case Submit => SubmitKeepsBooks(s);
    case TakeReceipt => OutcomeKeepsBooks(s, a);
    case LatchUnknown => OutcomeKeepsBooks(s, a);
    case _ =>
  }

  lemma WriteKeepsWorker(s: State, a: Action)
    requires WriteInv(s) && WriteStep(s, a).Some?
    ensures WorkerPlaced(WriteStep(s, a).value)
  {
    if a.Submit? {
      SlotIsEmptyAtSubmit(s);
    }
    hide Books, ClientPlaced, Latched;
  }

  lemma ClientStaysPlaced(s: State, a: Action)
    requires WriteInv(s) && WriteStep(s, a).Some?
    ensures ClientPlaced(WriteStep(s, a).value) && Latched(WriteStep(s, a).value)
  {
    var t := WriteStep(s, a).value;
    if a.Submit? {
      SlotIsEmptyAtSubmit(s);
      assert HasFailed(t.writes) <==> HasFailed(s.writes);
    }
    if |t.writes.outcomes| > |s.writes.outcomes| {
      RecordedOutcome(s.writes, t.writes.outcomes[|s.writes.outcomes|]);
      assert t.writes == s.writes.(outcomes := s.writes.outcomes + [t.writes.outcomes[|s.writes.outcomes|]]);
      assert a.TakeReceipt? ==> AnsweredBelow(t.writes, |t.writes.submitted|);
    }
    hide Books, WorkerPlaced, HasFailed;
    assert ClientPlaced(t);
  }

  // ---- what holds in every reachable state ----------------------------------

  lemma StepKeepsInv(s: State, a: Action)
    requires ReadInv(s) && WriteInv(s) && Step(s, a).Some?
    ensures ReadInv(Step(s, a).value) && WriteInv(Step(s, a).value)
  {
    hide WorkerStep, PollStep, ReadStep, WriteStep, Continuous, Books, HasFailed, AnsweredBelow;
    if WorkerStep(s, a).Some? {
      WorkerKeepsReads(s, a);
      WorkerKeepsBooks(s, a);
      WorkerStaysPlaced(s, a);
      WorkerKeepsClient(s, a);
      WorkerKeepsLatch(s, a);
    } else if PollStep(s, a).Some? {
      PollKeepsReads(s, a);
      PollKeepsWrites(s, a);
    } else if ReadStep(s, a).Some? {
      ReadKeepsReads(s, a);
      ReadKeepsWrites(s, a);
    } else if !a.Tick? {
      WriteKeepsReads(s, a);
      WriteKeepsBooks(s, a);
      WriteKeepsWorker(s, a);
      ClientStaysPlaced(s, a);
    }
  }

  lemma {:induction false} RunKeepsInv(s: State, actions: seq<Action>)
    requires ReadInv(s) && WriteInv(s) && Run(s, actions).Some?
    ensures ReadInv(Run(s, actions).value) && WriteInv(Run(s, actions).value)
    decreases |actions|
  {
    hide Step, ReadInv, WriteInv;
    if actions != [] {
      StepKeepsInv(s, actions[0]);
      RunKeepsInv(Step(s, actions[0]).value, actions[1..]);
    }
  }

  /** A state some interleaving from the start leads to. */
  ghost predicate Reachable(s: State) {
    exists actions :: Run(INITIAL, actions) == Some(s)
  }

  lemma ReachableInv(s: State)
    requires Reachable(s)
    ensures ReadInv(s) && WriteInv(s)
  {
    hide Run;
    var actions :| Run(INITIAL, actions) == Some(s);
    RunKeepsInv(INITIAL, actions);
  }

  /** Read continuity: what the caller has is a prefix of what the device gave,
      through overflow, oversize chunks, failure and stop; and buffering is
      bounded. */
  lemma ReadsAreAPrefix(s: State)
    requires Reachable(s)
    ensures s.input.returned <= Concat(s.input.polled)
    ensures |s.input.queue| <= RECEIVE_CHUNKS && |s.input.pending| <= CHUNK_BYTES
    ensures forall i :: 0 <= i < |s.input.queue| ==> 0 < |s.input.queue[i]| <= CHUNK_BYTES
  {
    ReachableInv(s);
    var r := s.input;
    assert r.returned <= Concat(r.queued) by {
      assert r.returned + (r.pending[r.offset..] + Concat(r.queue)) == Concat(r.queued);
    }
    if r.polled != r.queued {
      var last := r.polled[|r.polled| - 1];
      assert r.polled == r.queued + [last];
      ConcatSnoc(r.queued, last);
    }
  }

  /** A read that finds nothing has already returned every byte that was
      queued, and the worker holds at most the one chunk it just polled. */
  lemma EmptyReadMissesNothing(s: State)
    requires Reachable(s) && s.client.Receive? && s.input.queue == [] && Checks(s)
    ensures s.input.returned == Concat(s.input.queued)
    ensures s.input.polled == s.input.queued || s.worker.Receiving? || s.worker.Failing?
  {
    ReachableInv(s);
    assert s.input.pending[s.input.offset..] == [];
  }

  /** Each submitted request reaches the device at most once, in order. */
  lemma DeviceIsCalledAtMostOnce(s: State, i: nat, j: nat)
    requires Reachable(s) && i < |s.writes.deviceCalls| && j < |s.writes.deviceCalls|
    requires s.writes.deviceCalls[i] == s.writes.deviceCalls[j]
    ensures i == j && s.writes.deviceCalls[i] < |s.writes.submitted|
  {
    ReachableInv(s);
  }

  /** Success means the whole request, finished by the device before a deadline
      no later than the caller's and the owner's budget. */
  lemma SuccessIsWholeAndInTime(s: State, i: nat)
    requires Reachable(s) && i < |s.writes.outcomes| && s.writes.outcomes[i].Ok?
    ensures var Ok(id, n) := s.writes.outcomes[i];
      && id < |s.writes.submitted|
      && var r := s.writes.submitted[id];
      && r.id == id && n == |r.bytes| && id in s.writes.deviceCalls
      && id in s.writes.finishedAt && s.writes.finishedAt[id] < r.deadline
      && r.deadline <= r.sendBefore && r.deadline <= r.submittedAt + WRITE_BUDGET
  {
    ReachableInv(s);
  }

  /** No caller is ever told `WouldBlock` by a write: the slot is empty at every
      submission. */
  lemma WriteSlotIsNeverFull(s: State)
    requires Reachable(s)
    ensures s.client.Submitting? ==> s.writes.slot.None?
    ensures forall i :: 0 <= i < |s.writes.outcomes| ==> !s.writes.outcomes[i].WouldBlock?
  {
    ReachableInv(s);
    if s.client.Submitting? {
      SlotIsEmptyAtSubmit(s);
    }
  }

  /** The first failure is the one that stays. */
  lemma {:induction false} FirstFailureStays(s: State, actions: seq<Action>)
    requires Run(s, actions).Some?
    ensures s.stopping ==> Run(s, actions).value.stopping
    ensures s.failure.Some? ==> Run(s, actions).value.failure == s.failure
    decreases |actions|
  {
    if actions != [] {
      StepStaysStopped(s, actions[0]);
      hide Step;
      FirstFailureStays(Step(s, actions[0]).value, actions[1..]);
    }
  }

  lemma StepStaysStopped(s: State, a: Action)
    requires Step(s, a).Some?
    ensures s.stopping ==> Step(s, a).value.stopping
    ensures s.failure.Some? ==> Step(s, a).value.failure == s.failure
  {
    if WorkerStep(s, a).Some? {
      WorkerStaysStopped(s, a);
    } else if PollStep(s, a).Some? {
      PollStaysStopped(s, a);
    } else if ReadStep(s, a).Some? {
      ReadStaysStopped(s, a);
    } else if WriteStep(s, a).Some? {
      WriteStaysStopped(s, a);
    }
    hide WorkerStep, PollStep, ReadStep, WriteStep;
  }

  lemma WorkerStaysStopped(s: State, a: Action)
    requires WorkerStep(s, a).Some?
    ensures s.stopping ==> WorkerStep(s, a).value.stopping
    ensures s.failure.Some? ==> WorkerStep(s, a).value.failure == s.failure
  {
  }

  lemma PollStaysStopped(s: State, a: Action)
    requires PollStep(s, a).Some?
    ensures s.stopping ==> PollStep(s, a).value.stopping
    ensures s.failure.Some? ==> PollStep(s, a).value.failure == s.failure
  {
  }

  lemma ReadStaysStopped(s: State, a: Action)
    requires ReadStep(s, a).Some?
    ensures s.stopping ==> ReadStep(s, a).value.stopping
    ensures s.failure.Some? ==> ReadStep(s, a).value.failure == s.failure
  {
  }

  lemma WriteStaysStopped(s: State, a: Action)
    requires WriteStep(s, a).Some?
    ensures s.stopping ==> WriteStep(s, a).value.stopping
    ensures s.failure.Some? ==> WriteStep(s, a).value.failure == s.failure
  {
  }

  lemma FailedStepSubmitsNothing(s: State, a: Action)
    requires WriteInv(s) && HasFailed(s.writes) && Step(s, a).Some?
    ensures Step(s, a).value.writes.submitted == s.writes.submitted
    ensures Step(s, a).value.input.returned == s.input.returned
    ensures HasFailed(Step(s, a).value.writes)
  {
    var t := Step(s, a).value;
    assert !Checks(s) && !s.client.Submitting? by { hide Step, Books, WorkerPlaced, ReadInv; }
    hide WriteInv;
    OutcomesGrow(s, a);
    StoppedStepIsQuiet(s, a);
    hide Step;
    var i :| 0 <= i < |s.writes.outcomes| && s.writes.outcomes[i].Failed?;
    assert t.writes.outcomes[i].Failed?;
  }

  lemma WorkerOutcomesGrow(s: State, a: Action)
    requires WorkerStep(s, a).Some?
    ensures s.writes.outcomes <= WorkerStep(s, a).value.writes.outcomes
  {
  }

  lemma PollOutcomesGrow(s: State, a: Action)
    requires PollStep(s, a).Some?
    ensures s.writes.outcomes <= PollStep(s, a).value.writes.outcomes
  {
  }

  lemma ReadOutcomesGrow(s: State, a: Action)
    requires ReadStep(s, a).Some?
    ensures s.writes.outcomes <= ReadStep(s, a).value.writes.outcomes
  {
  }

  lemma WriteOutcomesGrow(s: State, a: Action)
    requires WriteStep(s, a).Some?
    ensures s.writes.outcomes <= WriteStep(s, a).value.writes.outcomes
  {
  }

  lemma OutcomesGrow(s: State, a: Action)
    requires Step(s, a).Some?
    ensures s.writes.outcomes <= Step(s, a).value.writes.outcomes
  {
    hide WorkerStep, PollStep, ReadStep, WriteStep;
    if a.Tick? {
    } else if WorkerStep(s, a).Some? {
      WorkerOutcomesGrow(s, a);
    } else if PollStep(s, a).Some? {
      PollOutcomesGrow(s, a);
    } else if ReadStep(s, a).Some? {
      ReadOutcomesGrow(s, a);
    } else {
      WriteOutcomesGrow(s, a);
    }
  }

  lemma WorkerIsQuiet(s: State, a: Action)
    requires WorkerStep(s, a).Some?
    ensures WorkerStep(s, a).value.writes.submitted == s.writes.submitted
      && WorkerStep(s, a).value.input.returned == s.input.returned
  {
  }

  lemma PollIsQuiet(s: State, a: Action)
    requires PollStep(s, a).Some?
    ensures PollStep(s, a).value.writes.submitted == s.writes.submitted
      && PollStep(s, a).value.input.returned == s.input.returned
  {
  }

  lemma ReadIsQuiet(s: State, a: Action)
    requires ReadStep(s, a).Some? && !Checks(s)
    ensures ReadStep(s, a).value.writes.submitted == s.writes.submitted
      && ReadStep(s, a).value.input.returned == s.input.returned
  {
  }

  lemma WriteIsQuiet(s: State, a: Action)
    requires WriteStep(s, a).Some? && !s.client.Submitting?
    ensures WriteStep(s, a).value.writes.submitted == s.writes.submitted
      && WriteStep(s, a).value.input.returned == s.input.returned
  {
  }

  lemma StoppedStepIsQuiet(s: State, a: Action)
    requires Step(s, a).Some? && !Checks(s) && !s.client.Submitting?
    ensures Step(s, a).value.writes.submitted == s.writes.submitted
    ensures Step(s, a).value.input.returned == s.input.returned
  {
    hide WorkerStep, PollStep, ReadStep, WriteStep;
    if a.Tick? {
    } else if WorkerStep(s, a).Some? {
      WorkerIsQuiet(s, a);
    } else if PollStep(s, a).Some? {
      PollIsQuiet(s, a);
    } else if ReadStep(s, a).Some? {
      ReadIsQuiet(s, a);
    } else {
      WriteIsQuiet(s, a);
    }
  }

  /** Write finality: once a caller has seen an error for a submitted request,
      no continuation of the run submits another or returns another byte. */
  lemma {:induction false} ErrorIsFinal(s: State, actions: seq<Action>)
    requires ReadInv(s) && WriteInv(s) && HasFailed(s.writes) && Run(s, actions).Some?
    ensures Run(s, actions).value.writes.submitted == s.writes.submitted
    ensures Run(s, actions).value.input.returned == s.input.returned
    decreases |actions|
  {
    if actions != [] {
      hide Step, ReadInv, WriteInv, HasFailed;
      FailedStepSubmitsNothing(s, actions[0]);
      StepKeepsInv(s, actions[0]);
      ErrorIsFinal(Step(s, actions[0]).value, actions[1..]);
    }
  }

  lemma ErrorIsFinalWhenReachable(s: State, actions: seq<Action>)
    requires Reachable(s) && HasFailed(s.writes) && Run(s, actions).Some?
    ensures Run(s, actions).value.writes.submitted == s.writes.submitted
    ensures Run(s, actions).value.input.returned == s.input.returned
  {
    ReachableInv(s);
    ErrorIsFinal(s, actions);
  }

  /** The failed branches are live: overflow really drops a chunk, and only
      that one. */
  lemma OverflowLosesOnlyTheLastChunk(s: State)
    requires Reachable(s) && s.worker.Receiving? && !s.client.Gone?
    requires |s.input.queue| == RECEIVE_CHUNKS && |s.worker.chunk| <= CHUNK_BYTES
    ensures Step(s, Enqueue).Some? && Step(s, Enqueue).value.worker == Failing(Overflow, ToLoop)
    ensures var t := Step(s, Enqueue).value;
      t.input.polled == s.input.queued + [s.worker.chunk] && t.input.queued == s.input.queued && Dropped(t)
  {
    ReachableInv(s);
    assert s.input.polled == s.input.polled[..|s.input.polled| - 1] + [s.input.polled[|s.input.polled| - 1]];
    hide ReadInv, WriteInv, Reachable;
  }

  /** A polled chunk was dropped, and the worker is on its way out. */
  predicate Dropped(s: State) {
    MissesOne(s.input) && OnTheWayOut(s)
  }

  lemma DroppedStays(s: State, a: Action)
    requires Dropped(s) && Step(s, a).Some?
    ensures Dropped(Step(s, a).value) && Step(s, a).value.input.polled == s.input.polled
      && Step(s, a).value.input.queued == s.input.queued
  {
    hide WorkerStep, PollStep, ReadStep, WriteStep, Dropped;
    if a.Tick? {
      ClockLeavesDropped(s, a.elapsed);
    } else if WorkerStep(s, a).Some? {
      WorkerLeavesDropped(s, a);
    } else if PollStep(s, a).Some? {
      PollLeavesDropped(s, a);
    } else if ReadStep(s, a).Some? {
      ReadLeavesDropped(s, a);
    } else {
      WriteLeavesDropped(s, a);
    }
  }

  /** The dropped state and the history of chunks are kept. */
  predicate LeavesDropped(s: State, t: State) {
    Dropped(t) && t.input.polled == s.input.polled && t.input.queued == s.input.queued
  }

  lemma ClockLeavesDropped(s: State, elapsed: nat)
    requires Dropped(s)
    ensures Dropped(s.(clock := s.clock + elapsed))
  {
  }

  lemma WorkerLeavesDropped(s: State, a: Action)
    requires Dropped(s) && WorkerStep(s, a).Some?
    ensures LeavesDropped(s, WorkerStep(s, a).value)
  {
  }

  lemma PollLeavesDropped(s: State, a: Action)
    requires Dropped(s) && PollStep(s, a).Some?
    ensures LeavesDropped(s, PollStep(s, a).value)
  {
  }

  lemma ReadLeavesDropped(s: State, a: Action)
    requires Dropped(s) && ReadStep(s, a).Some?
    ensures LeavesDropped(s, ReadStep(s, a).value)
  {
  }

  lemma WriteLeavesDropped(s: State, a: Action)
    requires Dropped(s) && WriteStep(s, a).Some?
    ensures LeavesDropped(s, WriteStep(s, a).value)
  {
  }

  /** After a drop nothing more is polled or queued in any continuation, so what
      the caller has stays a proper prefix for ever. */
  lemma {:induction false} DroppedStaysMissing(s: State, actions: seq<Action>)
    requires ReadInv(s) && WriteInv(s) && Dropped(s) && Run(s, actions).Some?
    ensures var t := Run(s, actions).value;
      && t.input.polled == s.input.polled && t.input.queued == s.input.queued
      && t.input.returned <= Concat(t.input.polled) && |t.input.returned| < |Concat(t.input.polled)|
    decreases |actions|
  {
    hide Step, WriteInv;
    if actions == [] {
      ReturnedIsWithinQueued(s.input);
      DroppedIsLonger(s);
    } else {
      StepKeepsInv(s, actions[0]);
      DroppedStays(s, actions[0]);
      hide ReadInv, Dropped;
      DroppedStaysMissing(Step(s, actions[0]).value, actions[1..]);
    }
  }

  lemma ReturnedIsWithinQueued(r: Reads)
    requires Continuous(r)
    ensures r.returned <= Concat(r.queued)
  {
    assert r.returned + (r.pending[r.offset..] + Concat(r.queue)) == Concat(r.queued);
  }

  lemma DroppedIsLonger(s: State)
    requires MissesOne(s.input)
    ensures Concat(s.input.queued) <= Concat(s.input.polled) && |Concat(s.input.queued)| < |Concat(s.input.polled)|
  {
    var last := s.input.polled[|s.input.polled| - 1];
    assert s.input.polled == s.input.queued + [last];
    ConcatSnoc(s.input.queued, last);
  }
}
