/** Ownership of a WebTransport session: clients/web/transport-session.js. Readers,
    writers and transports are names; a token is an object, so it carries the
    number of its `begin` besides the wrapping generation callers see. */
module TransportSession {
  import opened Wrappers
  import opened Bytes

  // ---- entities -------------------------------------------------------------

  datatype Token = Token(issue: nat, generation: nat, transport: nat)

  datatype Handle = Reader(id: nat) | Writer(id: nat)

  /** Calls made on the outside (`cancel` or `abort`, `close`), and the two ways
      an owner lets go without one. */
  datatype Event =
    | Disposed(handle: Handle)
    | Closed(transport: nat)
    | Untracked(handle: Handle)
    | Retired(transport: nat)

  /** Readers and writers in insertion order, as a JavaScript Set keeps them. */
  datatype Session = Session(token: Token, readers: seq<nat>, writers: seq<nat>)

  datatype State = State(issued: nat, generation: nat, active: Option<Session>, log: seq<Event>)

  const INITIAL := State(0, 0, None, [])

  datatype TypeFault = NotATransport | NotAReader | NotAWriter

  // ---- specification --------------------------------------------------------

  function Add(s: seq<nat>, x: nat): seq<nat> {
    if x in s then s else s + [x]
  }

  function Remove(s: seq<nat>, x: nat): seq<nat> {
    if s == [] then [] else if s[0] == x then s[1..] else [s[0]] + Remove(s[1..], x)
  }

  function ReaderCalls(readers: seq<nat>): seq<Event> {
    seq(|readers|, i requires 0 <= i < |readers| => Disposed(Reader(readers[i])))
  }

  function WriterCalls(writers: seq<nat>): seq<Event> {
    seq(|writers|, i requires 0 <= i < |writers| => Disposed(Writer(writers[i])))
  }

  function Disposal(session: Session, close: bool): seq<Event> {
    ReaderCalls(session.readers) + WriterCalls(session.writers)
    + [if close then Closed(session.token.transport) else Retired(session.token.transport)]
  }

  predicate IsActive(s: State, token: Token) {
    s.active.Some? && s.active.value.token == token
  }

  datatype Op =
    | Begin(transport: nat)
    | Close(token: Token)
    | Retire(token: Token)
    | Track(token: Token, handle: Handle)
    | Untrack(token: Token, handle: Handle)

  function NextToken(s: State, transport: nat): Token {
    Token(s.issued, (s.generation + 1) % 0x1_0000_0000, transport)
  }

  function Step(s: State, op: Op): State {
    match op
    case Begin(transport) =>
      var token := NextToken(s, transport);
      State(s.issued + 1, token.generation, Some(Session(token, [], [])),
            if s.active.Some? then s.log + Disposal(s.active.value, true) else s.log)
    case Close(token) =>
      if !IsActive(s, token) then s
      else s.(active := None, log := s.log + Disposal(s.active.value, true))
    case Retire(token) =>
      if !IsActive(s, token) then s
      else s.(active := None, log := s.log + Disposal(s.active.value, false))
    case Track(token, Reader(id)) =>
      if !IsActive(s, token) then s.(log := s.log + [Disposed(Reader(id))])
      else s.(active := Some(s.active.value.(readers := Add(s.active.value.readers, id))))
    case Track(token, Writer(id)) =>
      if !IsActive(s, token) then s.(log := s.log + [Disposed(Writer(id))])
      else s.(active := Some(s.active.value.(writers := Add(s.active.value.writers, id))))
    case Untrack(token, handle) =>
      if !IsActive(s, token) || !Tracks(s, handle) then s
      else
        var active := s.active.value;
        s.(active := Some(if handle.Reader? then active.(readers := Remove(active.readers, handle.id))
                          else active.(writers := Remove(active.writers, handle.id))),
           log := s.log + [Untracked(handle)])
  }

  predicate Tracks(s: State, h: Handle) {
    s.active.Some? && h.id in (if h.Reader? then s.active.value.readers else s.active.value.writers)
  }

  function Run(s: State, ops: seq<Op>): State
    decreases |ops|
  {
    if ops == [] then s else Run(Step(s, ops[0]), ops[1..])
  }

  // ---- the lifecycle object -------------------------------------------------

  class OwnedSession {
    const token: Token
    var readers: seq<nat>
    var writers: seq<nat>

    constructor (token: Token)
      ensures this.token == token && readers == [] && writers == []
    {
      this.token := token;
      readers, writers := [], [];
    }

    function Value(): Session
      reads this
    {
      Session(token, readers, writers)
    }
  }

  class TransportSessionLifecycle {
    var issued: nat
    var generation: nat
    var active: OwnedSession?
    var log: seq<Event>

    function Value(): State
      reads this, active
    {
      State(issued, generation, if active == null then None else Some(active.Value()), log)
    }

    constructor ()
      ensures Value() == INITIAL
    {
      issued, generation, active, log := 0, 0, null, [];
    }

    predicate Active(token: Token)
      reads this, active
    {
      active != null && active.token == token
    }

    method Dispose(session: OwnedSession, close: bool)
      modifies this`log, session
      ensures log == old(log) + Disposal(old(session.Value()), close)
    {
      ghost var before := log;
      for i := 0 to |session.readers|
        invariant session.Value() == old(session.Value())
        invariant log == before + ReaderCalls(session.readers[..i])
      {
        assert ReaderCalls(session.readers[..i + 1])
          == ReaderCalls(session.readers[..i]) + [Disposed(Reader(session.readers[i]))];
        log := log + [Disposed(Reader(session.readers[i]))];
      }
      assert session.readers[..|session.readers|] == session.readers;
      before := log;
      for i := 0 to |session.writers|
        invariant session.Value() == old(session.Value())
        invariant log == before + WriterCalls(session.writers[..i])
      {
        assert WriterCalls(session.writers[..i + 1])
          == WriterCalls(session.writers[..i]) + [Disposed(Writer(session.writers[i]))];
        log := log + [Disposed(Writer(session.writers[i]))];
      }
      assert session.writers[..|session.writers|] == session.writers;
      session.readers, session.writers := [], [];
      log := log + [if close then Closed(session.token.transport) else Retired(session.token.transport)];
    }

    /** `None` for an object without `close()`. */
    method Begin(transport: Option<nat>) returns (r: Result<Token, TypeFault>)
      modifies this, active
      ensures transport.None? ==> r == Failure(NotATransport) && Value() == old(Value())
      ensures transport.Some? ==> r == Success(NextToken(old(Value()), transport.value))
                                  && Value() == Step(old(Value()), Op.Begin(transport.value))
    {
      if transport.None? {
        return Failure(NotATransport);
      }
      var previous := active;
      generation := (generation + 1) % 0x1_0000_0000;
      var token := Token(issued, generation, transport.value);
      issued := issued + 1;
      active := new OwnedSession(token);
      if previous != null {
        Dispose(previous, true);
      }
      return Success(token);
    }

    method TrackReader(token: Token, reader: Option<nat>) returns (r: Result<bool, TypeFault>)
      modifies this, active
      ensures reader.None? ==> r == Failure(NotAReader) && Value() == old(Value())
      ensures reader.Some? ==>
        r == Success(old(Active(token))) && Value() == Step(old(Value()), Track(token, Reader(reader.value)))
    {
      if reader.None? {
        return Failure(NotAReader);
      }
      if !Active(token) {
        log := log + [Disposed(Reader(reader.value))];
        return Success(false);
      }
      active.readers := Add(active.readers, reader.value);
      return Success(true);
    }

    method TrackWriter(token: Token, writer: Option<nat>) returns (r: Result<bool, TypeFault>)
      modifies this, active
      ensures writer.None? ==> r == Failure(NotAWriter) && Value() == old(Value())
      ensures writer.Some? ==>
        r == Success(old(Active(token))) && Value() == Step(old(Value()), Track(token, Writer(writer.value)))
    {
      if writer.None? {
        return Failure(NotAWriter);
      }
      if !Active(token) {
        log := log + [Disposed(Writer(writer.value))];
        return Success(false);
      }
      active.writers := Add(active.writers, writer.value);
      return Success(true);
    }

    method UntrackReader(token: Token, reader: nat)
      modifies this, active
      ensures Value() == Step(old(Value()), Untrack(token, Reader(reader)))
    {
      if Active(token) && reader in active.readers {
        active.readers := Remove(active.readers, reader);
        log := log + [Untracked(Reader(reader))];
      }
    }

    method UntrackWriter(token: Token, writer: nat)
      modifies this, active
      ensures Value() == Step(old(Value()), Untrack(token, Writer(writer)))
    {
      if Active(token) && writer in active.writers {
        active.writers := Remove(active.writers, writer);
        log := log + [Untracked(Writer(writer))];
      }
    }

    method Close(token: Token) returns (closed: bool)
      modifies this, active
      ensures closed == old(Active(token)) && Value() == Step(old(Value()), Op.Close(token))
    {
      if !Active(token) {
        return false;
      }
      var session := active;
      active := null;
      Dispose(session, true);
      return true;
    }

    method Retire(token: Token) returns (retired: bool)
      modifies this, active
      ensures retired == old(Active(token)) && Value() == Step(old(Value()), Op.Retire(token))
    {
      if !Active(token) {
        return false;
      }
      var session := active;
      active := null;
      Dispose(session, false);
      return true;
    }
  }

  // ---- stale tokens ---------------------------------------------------------

  ghost predicate Issued(s: State) {
    && s.generation == s.issued % 0x1_0000_0000
    && (s.active.Some? ==> s.active.value.token.issue < s.issued)
  }

  /** A token that is not active is never active again, whatever happens. */
  lemma {:induction false} InactiveForGood(s: State, ops: seq<Op>, token: Token)
    requires Issued(s) && token.issue < s.issued && !IsActive(s, token)
    ensures !IsActive(Run(s, ops), token)
    decreases |ops|
  {
    if ops != [] {
      InactiveForGood(Step(s, ops[0]), ops[1..], token);
    }
  }

  lemma {:induction false} RunsIssue(s: State, ops: seq<Op>)
    requires Issued(s)
    ensures Issued(Run(s, ops)) && Run(s, ops).issued >= s.issued
    decreases |ops|
  {
    if ops != [] {
      RunsIssue(Step(s, ops[0]), ops[1..]);
    }
  }

  lemma {:induction false} RunInTwo(s: State, a: seq<Op>, b: seq<Op>)
    ensures Run(s, a + b) == Run(Run(s, a), b)
    decreases |a|
  {
    hide Step;
    Cons(a, b);
    if a != [] {
      RunInTwo(Step(s, a[0]), a[1..], b);
    }
  }

  /** From the start, over every run: a token issued in its first part and not
      active after it is not active after any continuation. */
  lemma TokensRetireForGood(first: seq<Op>, rest: seq<Op>, token: Token)
    requires token.issue < Run(INITIAL, first).issued && !IsActive(Run(INITIAL, first), token)
    ensures !IsActive(Run(INITIAL, first + rest), token)
  {
    RunsIssue(INITIAL, first);
    RunInTwo(INITIAL, first, rest);
    InactiveForGood(Run(INITIAL, first), rest, token);
    hide Run, IsActive;
  }

  function Begins(n: nat, transport: nat): seq<Op> {
    seq(n, i => Begin(transport))
  }

  lemma {:induction false} BeginsIssue(s: State, n: nat, transport: nat)
    requires Issued(s)
    ensures Issued(Run(s, Begins(n, transport))) && Run(s, Begins(n, transport)).issued == s.issued + n
    decreases n
  {
    if n > 0 {
      assert Begins(n, transport)[1..] == Begins(n - 1, transport);
      BeginsIssue(Step(s, Begin(transport)), n - 1, transport);
    }
  }

  /** The generation a caller sees does come back, on another token: after
      2^32 begins the next token carries the old number, and the old one is
      still inactive. */
  lemma GenerationRepeatsTokenDoesNot(s: State, transport: nat)
    requires Issued(s)
    ensures var first := NextToken(s, transport);
      var s1 := Step(s, Begin(transport));
      var s2 := Run(s1, Begins(0xFFFF_FFFF, transport));
      var again := NextToken(s2, transport);
      && IsActive(s1, first)
      && again.generation == first.generation && again != first
      && !IsActive(Step(s2, Begin(transport)), first)
  {
    var s1 := Step(s, Begin(transport));
    IssuedByBegin(s, transport);
    hide Run, Begins;
    BeginsIssue(s1, 0xFFFF_FFFF, transport);
    var s2 := Run(s1, Begins(0xFFFF_FFFF, transport));
    IssuedByBegin(s2, transport);
    hide Step;
    OneRoundOfGenerations(s.issued);
  }

  lemma IssuedByBegin(s: State, transport: nat)
    requires Issued(s)
    ensures var t := Step(s, Begin(transport));
      Issued(t) && t.issued == s.issued + 1 && IsActive(t, NextToken(s, transport))
    ensures NextToken(s, transport).generation == (s.issued + 1) % 0x1_0000_0000
  {
    var g := s.issued % 0x1_0000_0000;
    assert (g + 1) % 0x1_0000_0000 == (s.issued + 1) % 0x1_0000_0000;
  }

  lemma OneRoundOfGenerations(n: nat)
    ensures (n + 0x1_0000_0000 + 1) % 0x1_0000_0000 == (n + 1) % 0x1_0000_0000
  {
  }

  // ---- conservation ---------------------------------------------------------

  function B(b: bool): nat {
    if b then 1 else 0
  }

  function Offers(ops: seq<Op>, h: Handle): nat {
    if ops == [] then 0 else B(ops[0].Track? && ops[0].handle == h) + Offers(ops[1..], h)
  }

  function BeginsOn(ops: seq<Op>, transport: nat): nat {
    if ops == [] then 0 else B(ops[0] == Begin(transport)) + BeginsOn(ops[1..], transport)
  }

  function Count(log: seq<Event>, e: Event): nat {
    if log == [] then 0 else B(log[0] == e) + Count(log[1..], e)
  }

  lemma {:induction false} CountAppend(a: seq<Event>, b: seq<Event>, e: Event)
    ensures Count(a + b, e) == Count(a, e) + Count(b, e)
  {
    Cons(a, b);
    if a != [] {
      CountAppend(a[1..], b, e);
    }
  }

  /** Places a handle is accounted for. */
  function Places(s: State, h: Handle): nat {
    B(Tracks(s, h)) + Count(s.log, Disposed(h)) + Count(s.log, Untracked(h))
  }

  function TransportPlaces(s: State, transport: nat): nat {
    B(s.active.Some? && s.active.value.token.transport == transport)
    + Count(s.log, Closed(transport)) + Count(s.log, Retired(transport))
  }

  predicate NoDuplicates(s: seq<nat>) {
    s == [] || (s[0] !in s[1..] && NoDuplicates(s[1..]))
  }

  ghost predicate Sets(s: State) {
    s.active.Some? ==> NoDuplicates(s.active.value.readers) && NoDuplicates(s.active.value.writers)
  }

  lemma {:induction false} AddToSet(s: seq<nat>, x: nat)
    requires NoDuplicates(s) && x !in s
    ensures NoDuplicates(s + [x])
  {
    if s != [] {
      AddToSet(s[1..], x);
      assert (s + [x])[1..] == s[1..] + [x];
    }
  }

  lemma {:induction false} RemoveFromSet(s: seq<nat>, x: nat, y: nat)
    requires NoDuplicates(s)
    ensures NoDuplicates(Remove(s, x))
    ensures y in Remove(s, x) <==> y in s && y != x
  {
    if s != [] && s[0] != x {
      RemoveFromSet(s[1..], x, y);
      RemoveFromSet(s[1..], x, s[0]);
      assert ([s[0]] + Remove(s[1..], x))[1..] == Remove(s[1..], x);
    }
  }

  lemma {:induction false} CallsCount(s: seq<nat>, e: Event)
    requires NoDuplicates(s)
    ensures Count(ReaderCalls(s), e) == B(e.Disposed? && e.handle.Reader? && e.handle.id in s)
    ensures Count(WriterCalls(s), e) == B(e.Disposed? && e.handle.Writer? && e.handle.id in s)
  {
    if s != [] {
      CallsCount(s[1..], e);
      assert ReaderCalls(s)[1..] == ReaderCalls(s[1..]);
      assert WriterCalls(s)[1..] == WriterCalls(s[1..]);
    }
  }

  /** A disposal is one call for each handle held and one last word on the
      transport. */
  lemma DisposalCount(session: Session, close: bool, e: Event)
    requires NoDuplicates(session.readers) && NoDuplicates(session.writers)
    ensures Count(Disposal(session, close), e) ==
      match e
      case Disposed(Reader(id)) => B(id in session.readers)
      case Disposed(Writer(id)) => B(id in session.writers)
      case Untracked(_) => 0
      case Closed(t) => B(close && t == session.token.transport)
      case Retired(t) => B(!close && t == session.token.transport)
  {
    CallsCount(session.readers, e);
    CallsCount(session.writers, e);
    var readers, writers := ReaderCalls(session.readers), WriterCalls(session.writers);
    var last := if close then Closed(session.token.transport) else Retired(session.token.transport);
    CountAppend(readers + writers, [last], e);
    CountAppend(readers, writers, e);
    assert Count([last], e) == B(last == e) + Count([], e);
    hide ReaderCalls, WriterCalls, Count, NoDuplicates;
  }

  /** Ending the active session moves what it tracked into the log. */
  lemma EndAccounts(s: State, close: bool, h: Handle, transport: nat)
    requires Sets(s) && s.active.Some?
    ensures var ended := s.(active := None, log := s.log + Disposal(s.active.value, close));
      Places(ended, h) == Places(s, h) && TransportPlaces(ended, transport) == TransportPlaces(s, transport)
  {
    var calls := Disposal(s.active.value, close);
    DisposalCount(s.active.value, close, Disposed(h));
    DisposalCount(s.active.value, close, Untracked(h));
    DisposalCount(s.active.value, close, Closed(transport));
    DisposalCount(s.active.value, close, Retired(transport));
    CountAppend(s.log, calls, Disposed(h));
    CountAppend(s.log, calls, Untracked(h));
    CountAppend(s.log, calls, Closed(transport));
    CountAppend(s.log, calls, Retired(transport));
    hide Disposal, NoDuplicates, Count;
  }

  lemma BeginAccounts(s: State, begun: nat, h: Handle, transport: nat)
    requires Sets(s)
    ensures Sets(Step(s, Begin(begun))) && Places(Step(s, Begin(begun)), h) == Places(s, h)
    ensures TransportPlaces(Step(s, Begin(begun)), transport) == TransportPlaces(s, transport) + B(begun == transport)
  {
    var ended := s;
    if s.active.Some? {
      EndAccounts(s, true, h, transport);
      ended := s.(active := None, log := s.log + Disposal(s.active.value, true));
    }
    assert Step(s, Begin(begun)).log == ended.log;
    assert NoDuplicates([]);
    hide Disposal, NoDuplicates, Count;
  }

  lemma UntrackAccounts(s: State, token: Token, handle: Handle, h: Handle, transport: nat)
    requires Sets(s)
    ensures var t := Step(s, Untrack(token, handle));
      Sets(t) && Places(t, h) == Places(s, h) && TransportPlaces(t, transport) == TransportPlaces(s, transport)
  {
    if IsActive(s, token) {
      RemoveFromSet(s.active.value.readers, handle.id, h.id);
      RemoveFromSet(s.active.value.writers, handle.id, h.id);
      LogOne(s.log, Untracked(handle), h, transport);
    }
    hide NoDuplicates, Remove, Count;
  }

  lemma LogOne(log: seq<Event>, e: Event, h: Handle, transport: nat)
    ensures Count(log + [e], Disposed(h)) == Count(log, Disposed(h)) + B(e == Disposed(h))
    ensures Count(log + [e], Untracked(h)) == Count(log, Untracked(h)) + B(e == Untracked(h))
    ensures Count(log + [e], Closed(transport)) == Count(log, Closed(transport)) + B(e == Closed(transport))
    ensures Count(log + [e], Retired(transport)) == Count(log, Retired(transport)) + B(e == Retired(transport))
  {
    CountAppend(log, [e], Disposed(h));
    CountAppend(log, [e], Untracked(h));
    CountAppend(log, [e], Closed(transport));
    CountAppend(log, [e], Retired(transport));
  }

  lemma CloseAccounts(s: State, op: Op, h: Handle, transport: nat)
    requires Sets(s) && (op.Close? || op.Retire?)
    ensures var t := Step(s, op);
      Sets(t) && Places(t, h) == Places(s, h) && TransportPlaces(t, transport) == TransportPlaces(s, transport)
  {
    if IsActive(s, op.token) {
      EndAccounts(s, op.Close?, h, transport);
      assert Step(s, op) == s.(active := None, log := s.log + Disposal(s.active.value, op.Close?));
      hide Places, TransportPlaces, Disposal;
    }
  }

  lemma TrackAccounts(s: State, token: Token, handle: Handle, h: Handle, transport: nat)
    requires Sets(s)
    ensures var t := Step(s, Track(token, handle));
      && Sets(t)
      && ((handle == h ==> !Tracks(s, h)) ==> Places(t, h) == Places(s, h) + B(handle == h))
      && TransportPlaces(t, transport) == TransportPlaces(s, transport)
  {
    if IsActive(s, token) && !Tracks(s, handle) {
      AddToSet(if handle.Reader? then s.active.value.readers else s.active.value.writers, handle.id);
    }
    LogOne(s.log, Disposed(handle), h, transport);
    hide NoDuplicates, Count;
  }

  /** One step changes a handle's account by what was offered, and a
      transport's by what was begun. */
  lemma StepAccounts(s: State, op: Op, h: Handle, transport: nat)
    requires Sets(s)
    ensures Sets(Step(s, op))
    ensures (op.Track? && op.handle == h ==> !Tracks(s, h))
            ==> Places(Step(s, op), h) == Places(s, h) + B(op.Track? && op.handle == h)
    ensures TransportPlaces(Step(s, op), transport) == TransportPlaces(s, transport) + B(op == Begin(transport))
  {
    match op
    case Track(token, handle) =>
      TrackAccounts(s, token, handle, h, transport);
      hide Step, Places, TransportPlaces, Sets;
    case Untrack(token, handle) =>
      UntrackAccounts(s, token, handle, h, transport);
      hide Step, Places, TransportPlaces, Sets;
    case Begin(begun) =>
      BeginAccounts(s, begun, h, transport);
      hide Step, Places, TransportPlaces, Sets;
    case _ =>
      CloseAccounts(s, op, h, transport);
      hide Step, Places, TransportPlaces, Sets;
  }

  lemma {:induction false} RunAccounts(s: State, ops: seq<Op>, h: Handle, transport: nat)
    requires Sets(s)
    ensures Places(s, h) + Offers(ops, h) <= 1 ==> Places(Run(s, ops), h) == Places(s, h) + Offers(ops, h)
    ensures TransportPlaces(Run(s, ops), transport) == TransportPlaces(s, transport) + BeginsOn(ops, transport)
    decreases |ops|
  {
    if ops != [] {
      StepAccounts(s, ops[0], h, transport);
      RunAccounts(Step(s, ops[0]), ops[1..], h, transport);
    }
  }

  /** Over every run, a handle offered once is in one place: tracked by the
      active session, disposed once, or untracked by its owner. */
  lemma EachHandleIsInOnePlace(ops: seq<Op>, h: Handle)
    requires Offers(ops, h) == 1
    ensures var s := Run(INITIAL, ops);
      var disposed, untracked := Count(s.log, Disposed(h)), Count(s.log, Untracked(h));
      || (Tracks(s, h) && disposed == 0 && untracked == 0)
      || (!Tracks(s, h) && disposed == 1 && untracked == 0)
      || (!Tracks(s, h) && disposed == 0 && untracked == 1)
  {
    RunAccounts(INITIAL, ops, h, 0);
  }

  /** A handle nobody offered is never touched. */
  lemma StrangersAreLeftAlone(ops: seq<Op>, h: Handle)
    requires Offers(ops, h) == 0
    ensures !Tracks(Run(INITIAL, ops), h) && Count(Run(INITIAL, ops).log, Disposed(h)) == 0
  {
    RunAccounts(INITIAL, ops, h, 0);
  }

  /** Every begin is active, closed or retired: a transport begun once is
      closed at most once, and not while its session is active. */
  lemma EachBeginEndsOnce(ops: seq<Op>, transport: nat)
    ensures TransportPlaces(Run(INITIAL, ops), transport) == BeginsOn(ops, transport)
  {
    RunAccounts(INITIAL, ops, Reader(0), transport);
  }
}
