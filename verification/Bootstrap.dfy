/** The bootstrap reader, clients/web/bootstrap.js: the one place a lease request
    can be decided. */
module Bootstrap {
  import opened Bytes
  import opened Framing
  import UniStream

  datatype Kind = ServerWelcome | LeaseResponse | OtherKind

  /** What the world answers at the n-th decoded message: whether motion
      authority is wanted at that moment, whether a request sent then leaves the
      session current, and whether a LeaseResponse there is the answer to this
      reader's request, not one of another scope, vehicle or request. */
  datatype World = World(wants: nat -> bool, sends: nat -> bool, answers: nat -> bool)

  /** How the reader came back. `requests` counts calls of `sendLeaseRequest`;
      `answered` says the answer to its request ended it. */
  datatype Result =
    | Returned(completed: bool, welcomed: bool, requests: nat, answered: bool)
    | Thrown(requests: nat)

  function Requests(sent: bool): nat { if sent then 1 else 0 }

  /** The reader as a function of the messages that arrive while its session is
      active. A stream that ends and a session that is superseded look alike. */
  function Boot(messages: seq<Kind>, threw: bool, n: nat, welcomed: bool, sent: bool, w: World): Result
    decreases |messages|
  {
    if messages == [] then
      if threw then Thrown(Requests(sent)) else Returned(false, welcomed, Requests(sent), false)
    else
      match messages[0]
      case OtherKind => Boot(messages[1..], threw, n + 1, welcomed, sent, w)
      case LeaseResponse => Returned(true, welcomed, Requests(sent), sent && w.answers(n))
      case ServerWelcome =>
        if !w.wants(n) then Returned(true, true, Requests(sent), false)
        else if !sent && !w.sends(n) then Returned(false, true, 1, false)
        else Boot(messages[1..], threw, n + 1, true, true, w)
  }

  /** The nested loops of the source. `live` reads return while the session is
      active; the one after them finds it superseded and the chunk is dropped.
      How the octets before that were cut does not show in the result. */
  method RunBootstrapReader(stream: seq<seq<byte>>, live: nat, body: BodyDecoder<Kind>, w: World) returns (r: Result)
    ensures var d := UniStream.DrainEnvelopes(Concat(stream[..Min(live, |stream|)]), body);
      r == Boot(d.delivered, d.threw, 0, false, false, w)
  {
    hide DecodeLengthDelimited, Boot, UniStream.DrainEnvelopes;
    ghost var chunks := stream[..Min(live, |stream|)];
    var pending: seq<byte> := [];
    var welcomed, sentLease := false, false;
    var n: nat := 0;
    var i := 0;
    assert chunks[0..] == chunks && pending + Concat(chunks) == Concat(chunks);
    EmptyNeedsMore(body);
    while i < |stream|
      invariant 0 <= i <= |chunks|
      invariant Ahead(pending + Concat(chunks[i..]), body, n, welcomed, sentLease, w)
        == Ahead(Concat(chunks), body, 0, false, false, w)
      invariant DecodeLengthDelimited(pending, body).NeedMore?
    {
      if i >= live {
        assert chunks[i..] == [];
        break;
      }
      ghost var rest := Concat(chunks[i + 1..]);
      assert chunks[i..][1..] == chunks[i + 1..] && stream[i] == chunks[i];
      assert pending + Concat(chunks[i..]) == (pending + chunks[i]) + rest;
      pending := pending + stream[i];
      i := i + 1;
      while true
        invariant Ahead(pending + rest, body, n, welcomed, sentLease, w)
          == Ahead(Concat(chunks), body, 0, false, false, w)
        decreases |pending|
      {
        var decoded := DecodeLengthDelimited(pending, body);
        AheadOne(pending, rest, body, n, welcomed, sentLease, w);
        if decoded.NeedMore? {
          break;
        }
        if decoded.Throws? {
          return Thrown(Requests(sentLease));
        }
        pending := pending[decoded.consumed..];
        if decoded.message.ServerWelcome? {
          welcomed := true;
          if !w.wants(n) {
            return Returned(true, true, Requests(sentLease), false);
          }
          if !sentLease {
            sentLease := true;
            if !w.sends(n) {
              return Returned(false, true, 1, false);
            }
          }
        }
        if decoded.message.LeaseResponse? {
          return Returned(true, welcomed, Requests(sentLease), sentLease && w.answers(n));
        }
        n := n + 1;
      }
    }
    assert i == |chunks|;
    assert pending + Concat(chunks[i..]) == pending + [] == pending;
    AheadOne(pending, [], body, n, welcomed, sentLease, w);
    r := Returned(false, welcomed, Requests(sentLease), false);
  }

  lemma EmptyNeedsMore(body: BodyDecoder<Kind>)
    ensures DecodeLengthDelimited([], body).NeedMore?
  {
  }

  /** What the reader will return, given the octets still ahead of it. */
  function Ahead(bytes: seq<byte>, body: BodyDecoder<Kind>, n: nat, welcomed: bool, sent: bool, w: World): Result {
    var d := UniStream.DrainEnvelopes(bytes, body);
    Boot(d.delivered, d.threw, n, welcomed, sent, w)
  }

  lemma AheadOne(pending: seq<byte>, rest: seq<byte>, body: BodyDecoder<Kind>, n: nat, welcomed: bool, sent: bool,
                 w: World)
    ensures var decoded, now := DecodeLengthDelimited(pending, body), Ahead(pending + rest, body, n, welcomed, sent, w);
      match decoded
      case NeedMore => rest == [] ==> now == Returned(false, welcomed, Requests(sent), false)
      case Throws => now == Thrown(Requests(sent))
      case Complete(m, consumed) =>
        0 < consumed <= |pending| &&
        now == match m
          case OtherKind => Ahead(pending[consumed..] + rest, body, n + 1, welcomed, sent, w)
          case LeaseResponse => Returned(true, welcomed, Requests(sent), sent && w.answers(n))
          case ServerWelcome =>
            if !w.wants(n) then Returned(true, true, Requests(sent), false)
            else if !sent && !w.sends(n) then Returned(false, true, 1, false)
            else Ahead(pending[consumed..] + rest, body, n + 1, true, true, w)
  {
    hide DecodeLengthDelimited;
    var decoded := DecodeLengthDelimited(pending, body);
    if decoded.NeedMore? {
      assert pending + [] == pending;
    } else {
      VerdictIsPrefixStable(pending, rest, body);
      if decoded.Complete? {
        UniStream.ConsumedIsWithin(pending, body);
        assert (pending + rest)[decoded.consumed..] == pending[decoded.consumed..] + rest;
        var later := UniStream.DrainEnvelopes(pending[decoded.consumed..] + rest, body);
        assert ([decoded.message] + later.delivered)[1..] == later.delivered;
      }
    }
  }

  // ---- the lease decision ---------------------------------------------------

  /** A message that makes the reader return. */
  predicate Ends(k: Kind, n: nat, w: World) {
    k.LeaseResponse? || (k.ServerWelcome? && !w.wants(n))
  }

  /** None of the first k messages ends the reader. */
  predicate ReadsOn(messages: seq<Kind>, n: nat, w: World, k: nat)
    requires k <= |messages|
    decreases k
  {
    k == 0 || (!Ends(messages[0], n, w) && ReadsOn(messages[1..], n + 1, w, k - 1))
  }

  /** The k-th message is a welcome that the reader gets to. */
  predicate WelcomeReached(messages: seq<Kind>, n: nat, w: World, k: nat) {
    k < |messages| && messages[k].ServerWelcome? && ReadsOn(messages, n, w, k)
  }

  lemma ReachedLater(messages: seq<Kind>, n: nat, w: World, k: nat)
    requires messages != [] && !Ends(messages[0], n, w)
    ensures WelcomeReached(messages, n, w, k + 1) == WelcomeReached(messages[1..], n + 1, w, k)
  {
  }

  /** The lease is requested at most once, and exactly when the reader gets to a
      `ServerWelcome` while it is wanted. */
  lemma {:induction false} RequestedExactlyAtAWantedWelcome(messages: seq<Kind>, threw: bool, n: nat, welcomed: bool,
                                                            w: World)
    ensures Boot(messages, threw, n, welcomed, false, w).requests <= 1
    ensures Boot(messages, threw, n, welcomed, false, w).requests == 1 <==>
      exists k: nat :: WelcomeReached(messages, n, w, k) && w.wants(n + k)
    decreases |messages|
  {
    if messages != [] {
      var rest, next := messages[1..], n + 1;
      RequestedExactlyAtAWantedWelcome(rest, threw, next, welcomed, w);
      if messages[0].ServerWelcome? && w.wants(n) {
        OnceSentAlwaysOne(rest, threw, next, true, w);
        assert WelcomeReached(messages, n, w, 0) && w.wants(n + 0);
      } else if !Ends(messages[0], n, w) {
        if k: nat :| WelcomeReached(rest, next, w, k) && w.wants(next + k) {
          ReachedLater(messages, n, w, k);
          assert w.wants(n + (k + 1));
        }
        if k: nat :| WelcomeReached(messages, n, w, k) && w.wants(n + k) {
          ReachedLater(messages, n, w, k - 1);
          assert w.wants(next + (k - 1));
        }
      }
    }
  }

  lemma {:induction false} OnceSentAlwaysOne(messages: seq<Kind>, threw: bool, n: nat, welcomed: bool, w: World)
    ensures Boot(messages, threw, n, welcomed, true, w).requests == 1
    decreases |messages|
  {
    if messages != [] && !Ends(messages[0], n, w) {
      OnceSentAlwaysOne(messages[1..], threw, n + 1, welcomed || messages[0].ServerWelcome?, w);
    }
  }

  // ---- a request left unanswered --------------------------------------------

  /** The reader came back as completed, but with its own request unanswered. */
  predicate LeavesRequestOpen(r: Result) {
    r.Returned? && r.completed && r.requests == 1 && !r.answered
  }

  /** A message at which the reader comes back without the answer to its
      request: an unwanted welcome, or another's LeaseResponse. */
  predicate EndsOpen(k: Kind, n: nat, w: World) {
    (k.ServerWelcome? && !w.wants(n)) || (k.LeaseResponse? && !w.answers(n))
  }

  predicate OpenEndReached(messages: seq<Kind>, n: nat, w: World, k: nat) {
    k < |messages| && EndsOpen(messages[k], n + k, w) && ReadsOn(messages, n, w, k)
  }

  lemma EndReachedLater(messages: seq<Kind>, n: nat, w: World, k: nat)
    requires messages != [] && !Ends(messages[0], n, w)
    ensures OpenEndReached(messages, n, w, k + 1) == OpenEndReached(messages[1..], n + 1, w, k)
  {
  }

  /** Once a request is out, it stays open exactly when the reader gets to such
      a message. */
  lemma {:induction false} OpenExactlyAtAnOpenEnd(messages: seq<Kind>, threw: bool, n: nat, welcomed: bool, w: World)
    ensures LeavesRequestOpen(Boot(messages, threw, n, welcomed, true, w)) <==>
      exists k: nat :: OpenEndReached(messages, n, w, k)
    decreases |messages|
  {
    if messages != [] {
      var rest, next := messages[1..], n + 1;
      if EndsOpen(messages[0], n, w) {
        assert OpenEndReached(messages, n, w, 0);
      } else if !Ends(messages[0], n, w) {
        OpenExactlyAtAnOpenEnd(rest, threw, next, welcomed || messages[0].ServerWelcome?, w);
        if k: nat :| OpenEndReached(rest, next, w, k) {
          EndReachedLater(messages, n, w, k);
        }
        if k: nat :| OpenEndReached(messages, n, w, k) {
          EndReachedLater(messages, n, w, k - 1);
        }
      }
    }
  }

  /** The reader asks at message `j`, its first welcome. */
  predicate AsksAt(messages: seq<Kind>, n: nat, w: World, j: nat) {
    && WelcomeReached(messages, n, w, j) && w.wants(n + j) && w.sends(n + j)
    && forall i :: 0 <= i < j ==> !messages[i].ServerWelcome?
  }

  lemma AskedLater(messages: seq<Kind>, n: nat, w: World, j: nat)
    requires messages != [] && messages[0].OtherKind?
    ensures AsksAt(messages, n, w, j + 1) == AsksAt(messages[1..], n + 1, w, j)
  {
    ReachedLater(messages, n, w, j);
    if AsksAt(messages[1..], n + 1, w, j) {
      assert forall i :: 0 < i < j + 1 ==> messages[i] == messages[1..][i - 1];
    }
    if AsksAt(messages, n, w, j + 1) {
      assert forall i :: 0 <= i < j ==> messages[1..][i] == messages[i + 1];
    }
    hide ReadsOn;
  }

  /** From the start: the reader leaves its own request open if and only if it
      asks at its first welcome and then gets to an unwanted welcome or to a
      LeaseResponse that is not its answer. */
  lemma {:induction false} OpenExactlyWhenAskedAndEndedOpen(messages: seq<Kind>, threw: bool, n: nat, w: World)
    ensures LeavesRequestOpen(Boot(messages, threw, n, false, false, w)) <==>
      exists j: nat, k: nat :: j < k && AsksAt(messages, n, w, j) && OpenEndReached(messages, n, w, k)
    decreases |messages|
  {
    if messages != [] {
      var rest, next := messages[1..], n + 1;
      match messages[0]
      case LeaseResponse =>
      case OtherKind =>
        OpenExactlyWhenAskedAndEndedOpen(rest, threw, next, w);
        if j: nat, k: nat :| j < k && AsksAt(rest, next, w, j) && OpenEndReached(rest, next, w, k) {
          AskedLater(messages, n, w, j);
          EndReachedLater(messages, n, w, k);
          assert j + 1 < k + 1;
        }
        if j: nat, k: nat :| j < k && AsksAt(messages, n, w, j) && OpenEndReached(messages, n, w, k) {
          AskedLater(messages, n, w, j - 1);
          EndReachedLater(messages, n, w, k - 1);
          assert j - 1 < k - 1;
        }
      case ServerWelcome =>
        AskedAtOnce(messages, threw, n, w);
    }
  }

  lemma AskedAtOnce(messages: seq<Kind>, threw: bool, n: nat, w: World)
    requires messages != [] && messages[0].ServerWelcome?
    ensures LeavesRequestOpen(Boot(messages, threw, n, false, false, w)) <==>
      exists j: nat, k: nat :: j < k && AsksAt(messages, n, w, j) && OpenEndReached(messages, n, w, k)
  {
    var rest, next := messages[1..], n + 1;
    if w.wants(n) && w.sends(n) {
      OpenExactlyAtAnOpenEnd(rest, threw, next, true, w);
      assert AsksAt(messages, n, w, 0);
      if k: nat :| OpenEndReached(rest, next, w, k) {
        EndReachedLater(messages, n, w, k);
        assert 0 < k + 1;
      }
      if j: nat, k: nat :| j < k && AsksAt(messages, n, w, j) && OpenEndReached(messages, n, w, k) {
        EndReachedLater(messages, n, w, k - 1);
      }
    } else {
      assert forall j: nat :: !AsksAt(messages, n, w, j);
    }
  }

  function Welcomes(messages: seq<Kind>): nat {
    if messages == [] then 0 else (if messages[0].ServerWelcome? then 1 else 0) + Welcomes(messages[1..])
  }

  /** A host that sends one `ServerWelcome` and no LeaseResponse but the answer
      never leaves the request open. */
  lemma OneWelcomeIsAnswered(messages: seq<Kind>, threw: bool, n: nat, w: World)
    requires Welcomes(messages) <= 1
    requires forall k :: 0 <= k < |messages| && messages[k].LeaseResponse? ==> w.answers(n + k)
    ensures !LeavesRequestOpen(Boot(messages, threw, n, false, false, w))
  {
    OpenExactlyWhenAskedAndEndedOpen(messages, threw, n, w);
    if j: nat, k: nat :| j < k && AsksAt(messages, n, w, j) && OpenEndReached(messages, n, w, k) {
      TwoWelcomes(messages, j, k);
      assert false;
    }
  }

  lemma {:induction false} TwoWelcomes(messages: seq<Kind>, j: nat, k: nat)
    requires j < k < |messages| && messages[j].ServerWelcome? && messages[k].ServerWelcome?
    ensures Welcomes(messages) >= 2
    decreases |messages|
  {
    if j > 0 {
      TwoWelcomes(messages[1..], j - 1, k - 1);
    } else {
      OneWelcome(messages[1..], k - 1);
    }
  }

  lemma {:induction false} OneWelcome(messages: seq<Kind>, k: nat)
    requires k < |messages| && messages[k].ServerWelcome?
    ensures Welcomes(messages) >= 1
    decreases |messages|
  {
    if k > 0 {
      OneWelcome(messages[1..], k - 1);
    }
  }

  /** Two welcomes with a blur between them do: the reader asks at the first and
      returns at the second, completed and unanswered. */
  lemma SecondWelcomeLeavesRequestOpen(w: World)
    requires w.wants(0) && w.sends(0) && !w.wants(1)
    ensures LeavesRequestOpen(Boot([ServerWelcome, ServerWelcome], false, 0, false, false, w))
  {
    assert [ServerWelcome, ServerWelcome][1..] == [ServerWelcome];
  }

  /** So does one welcome, wanted throughout, and then a LeaseResponse of another
      scope. */
  lemma StrayResponseLeavesRequestOpen(w: World)
    requires w.wants(0) && w.sends(0) && !w.answers(1)
    ensures LeavesRequestOpen(Boot([ServerWelcome, LeaseResponse], false, 0, false, false, w))
  {
    assert [ServerWelcome, LeaseResponse][1..] == [LeaseResponse];
  }
}
