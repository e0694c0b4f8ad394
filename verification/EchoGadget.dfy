/**
  The gadget as an object: `ready_message_id`, `proceed_round` and `wrap_execution`, proved
  against the run of module Echo.
*/
module EchoGadget {
  import opened Basics
  import opened Messages
  import opened Execution
  import opened Echo
  import opened EchoOrder

  /** A hash sent back to the sender of a received broadcast. */
  datatype Ack = Ack(id: nat, to: nat, hash: Bytes)

  function Acks(id: nat, g: seq<EchoMessage>, h: Bytes): seq<Ack> {
    if g == [] then []
    else (if g[0].outgoing then [] else [Ack(id, g[0].sender, h)]) + Acks(id, g[1..], h)
  }

  datatype Progress = Continue | Finished | Error(error: EchoError) | Blocked

  /** `Never` stands for a future that stays pending. */
  datatype WrapResult = Success | EchoError(error: EchoError) | ComputationError | Never

  /** How the echo's end and the computation's result combine. */
  function Combine(end: GadgetEnd, computationOk: bool, computationFirst: bool): WrapResult {
    if computationFirst && !computationOk then ComputationError
    else
      match end
      case Closed => if computationOk then Success else ComputationError
      case Failed(error) => EchoError(error)
      case Waiting => if computationOk then Never else ComputationError
  }

  function IncomingSenders(g: seq<EchoMessage>): seq<nat> {
    if g == [] then []
    else (if g[0].outgoing then [] else [g[0].sender]) + IncomingSenders(g[1..])
  }

  lemma {:induction false} IncomingSendersAppend(g: seq<EchoMessage>, e: EchoMessage)
    ensures IncomingSenders(g + [e]) == IncomingSenders(g) + if e.outgoing then [] else [e.sender]
  {
    if g == [] {
      assert [e][1..] == [];
    } else {
      assert (g + [e])[1..] == g[1..] + [e];
      IncomingSendersAppend(g[1..], e);
    }
  }

  function AcksTo(id: nat, senders: seq<nat>, h: Bytes): seq<Ack> {
    seq(|senders|, i requires 0 <= i < |senders| => Ack(id, senders[i], h))
  }

  lemma AcksToAppend(id: nat, a: seq<nat>, b: seq<nat>, h: Bytes)
    ensures AcksTo(id, a + b, h) == AcksTo(id, a, h) + AcksTo(id, b, h)
  {
  }

  lemma {:induction false} AcksToSenders(id: nat, g: seq<EchoMessage>, h: Bytes)
    ensures AcksTo(id, IncomingSenders(g), h) == Acks(id, g, h)
  {
    if g != [] {
      AcksToSenders(id, g[1..], h);
      var first := if g[0].outgoing then [] else [g[0].sender];
      AcksToAppend(id, first, IncomingSenders(g[1..]), h);
    }
  }

  lemma {:induction false} RemoteSenders(n: nat, self: nat, id: nat, v: seq<EchoMessage>, k: nat)
    requires OneEach(n, self, id, v) && k <= n
    ensures IncomingSenders(v[..k]) == Remotes(k, self)
  {
    if k > 0 {
      RemoteSenders(n, self, id, v, k - 1);
      assert v[..k] == v[..k - 1] + [v[k - 1]];
      IncomingSendersAppend(v[..k - 1], v[k - 1]);
    }
  }

  /** A vector that holds the payload of every message of a group, by sender. */
  ghost predicate VectorOfGroup(g: seq<EchoMessage>, v: seq<Bytes>) {
    forall e :: e in g ==> 1 <= e.sender <= |v| && v[e.sender - 1] == e.payload
  }

  /** The hash of a full group is that of its payloads in sender order. */
  lemma GroupHashIs(n: nat, self: nat, id: nat, g: seq<EchoMessage>, v: seq<Bytes>, hash: Bytes -> Bytes)
    requires OneEach(n, self, id, SortBySender(g)) && |v| == n && VectorOfGroup(g, v)
    ensures GroupHash(g, hash) == hash(Concat(v))
  {
    hide SortBySender;
    var sorted := SortBySender(g);
    forall k | 0 <= k < n ensures sorted[k].payload == v[k] {
      assert sorted[k] in sorted;
    }
    assert Payloads(sorted) == v;
  }

  /**
    A full group is acknowledged once to every other party, in order, under its number, with the hash
    of the n payloads in sender order.
  */
  lemma AcknowledgesAll(n: nat, self: nat, id: nat, g: seq<EchoMessage>, v: seq<Bytes>, hash: Bytes -> Bytes)
    requires Session(n, self) && OneEach(n, self, id, SortBySender(g)) && |v| == n && VectorOfGroup(g, v)
    ensures var acks := Acks(id, SortBySender(g), GroupHash(g, hash));
            && |acks| == |Remotes(n, self)| == n - 1
            && forall k :: 0 <= k < n - 1 ==> acks[k] == Ack(id, Remotes(n, self)[k], hash(Concat(v)))
  {
    hide SortBySender;
    var sorted := SortBySender(g);
    GroupHashIs(n, self, id, g, v, hash);
    AcksToSenders(id, sorted, GroupHash(g, hash));
    RemoteSenders(n, self, id, sorted, n);
    assert sorted[..n] == sorted;
    RemotesAre(n, self);
  }

  /** Two messages with different senders in the prefix, as the loop over a sorted group sees it. */
  lemma StepOver(g: seq<EchoMessage>, i: nat)
    requires i < |g|
    ensures g[i..][0] == g[i] && g[i..][1..] == g[i + 1..] && g[..i + 1] == g[..i] + [g[i]]
    ensures Concat(Payloads(g[..i + 1])) == Concat(Payloads(g[..i])) + g[i].payload
    ensures IncomingSenders(g[..i + 1]) == IncomingSenders(g[..i]) + if g[i].outgoing then [] else [g[i].sender]
  {
    assert g[..i + 1] == g[..i] + [g[i]];
    assert Payloads(g[..i + 1]) == Payloads(g[..i]) + [g[i].payload];
    ConcatAppend(Payloads(g[..i]), [g[i].payload]);
    assert Concat([g[i].payload]) == g[i].payload + Concat([]);
    IncomingSendersAppend(g[..i], g[i]);
  }

  class EchoGadget {
    const env: Env
    var r: nat
    var msgs: Groups
    var rx: seq<EchoMessage> // everything still to be received before the channel closes
    var acks: seq<Ack>
    ghost var confirmed: seq<Group>

    ghost predicate Valid()
      reads this
    {
      env.n >= 2
    }

    /** What the rest of this gadget's life will be. */
    ghost function Future(): Outcome
      requires Valid()
      reads this
    {
      Run(env, msgs, rx)
    }

    constructor (env: Env, rx: seq<EchoMessage>)
      requires env.n >= 2
      ensures Valid() && this.env == env && this.rx == rx
      ensures r == 0 && msgs == map[] && acks == [] && confirmed == []
    {
      this.env, this.rx := env, rx;
      r, msgs, acks, confirmed := 0, map[], [], [];
    }

    /** Looks through the groups for the lowest numbered one that is full and holds an own message. */
    method ReadyMessageId() returns (id: Option<nat>)
      ensures id == FirstReady(env.n, msgs)
    {
      id := None;
      var rest := msgs.Keys;
      while rest != {}
        invariant rest <= msgs.Keys
        invariant id.Some? ==> ReadyAt(env.n, msgs, id.value)
        invariant forall k: nat :: k in msgs && k !in rest && ReadyAt(env.n, msgs, k) ==> id.Some? && id.value <= k
        decreases rest
      {
        var k :| k in rest;
        rest := rest - {k};
        if IsReady(env.n, msgs[k]) && (id.None? || k < id.value) {
          id := Some(k);
        }
      }
    }

    /** Hashes a ready group, acknowledges every remote, then compares the n - 1 replies. */
    method HashAndCompare(id: nat, group: seq<EchoMessage>) returns (end: RoundEnd)
      requires Valid() && IsReady(env.n, group)
      modifies this`acks
      ensures end == EndOf(env.n, group, env.replies(id), env.hash)
      ensures end.Rejected? && end.error.DuplicateSender? ==> acks == old(acks)
      ensures !(end.Rejected? && end.error.DuplicateSender?) ==>
                acks == old(acks) + Acks(id, SortBySender(group), GroupHash(group, env.hash))
    {
      var sorted := SortBySender(group);
      var hashed: Bytes := [];
      var incoming: seq<nat> := [];
      var senders: set<nat> := {};
      assert sorted[0..] == sorted && sorted[..0] == [];
      for i := 0 to |sorted|
        invariant hashed == Concat(Payloads(sorted[..i]))
        invariant incoming == IncomingSenders(sorted[..i])
        invariant FirstDuplicate(sorted, {}) == FirstDuplicate(sorted[i..], senders)
        invariant acks == old(acks)
      {
        StepOver(sorted, i);
        var e := sorted[i];
        if e.sender in senders {
          return Rejected(DuplicateSender(e.sender));
        }
        senders := senders + {e.sender};
        hashed := hashed + e.payload;
        if !e.outgoing {
          incoming := incoming + [e.sender];
        }
      }
      assert sorted[..|sorted|] == sorted && sorted[|sorted|..] == [];
      var h := env.hash(hashed);
      AcksToSenders(id, sorted, h);
      acks := acks + AcksTo(id, incoming, h);
      end := Compare(id, h);
      ghost var replies := env.replies(id);
      if |replies| >= env.n - 1 {
        RepliesConfirmIff(replies[..env.n - 1], h, 0);
      }
    }

    method Compare(id: nat, h: Bytes) returns (end: RoundEnd)
      requires Valid()
      ensures var replies := env.replies(id);
              end == if |replies| < env.n - 1 then Stalled else CheckReplies(replies[..env.n - 1], h, 0)
    {
      var replies := env.replies(id);
      if |replies| < env.n - 1 {
        return Stalled;
      }
      var echoHashes := replies[..env.n - 1];
      assert echoHashes[0..] == echoHashes;
      for i := 0 to |echoHashes|
        invariant CheckReplies(echoHashes, h, 0) == CheckReplies(echoHashes[i..], h, i)
      {
        assert echoHashes[i..][0] == echoHashes[i] && echoHashes[i..][1..] == echoHashes[i + 1..];
        match echoHashes[i]
        case Hash(h') =>
          if h' != h {
            return Rejected(HashMismatch(i));
          }
        case RequestFailure =>
          return Rejected(EchoFailed);
      }
      end := Confirmed;
    }

    /** Receives until a group is ready or the channel is closed. */
    method AwaitReady() returns (id: Option<nat>)
      requires Valid()
      modifies this`msgs, this`rx
      ensures Future() == old(Future()) && id == FirstReady(env.n, msgs)
      ensures id.None? ==> rx == []
      ensures 2 * |rx| + |msgs| <= old(2 * |rx| + |msgs|)
    {
      id := ReadyMessageId();
      while id.None? && rx != []
        invariant Future() == old(Future()) && id == FirstReady(env.n, msgs)
        invariant 2 * |rx| + |msgs| <= old(2 * |rx| + |msgs|)
        decreases |rx|
      {
        ReceiveGrows(msgs, rx[0]);
        msgs, rx := Receive(msgs, rx[0]), rx[1..];
        id := ReadyMessageId();
      }
    }

    /**
      One round.  The group taken out already has n messages, so the source's second receive
      loop, which would wait for missing ones, has nothing to wait for.
    */
    method ProceedRound() returns (res: Progress)
      requires Valid()
      modifies this
      ensures res == Continue ==>
                && |confirmed| == |old(confirmed)| + 1 && confirmed[..|confirmed| - 1] == old(confirmed)
                && old(Future()) == Outcome([confirmed[|confirmed| - 1]] + Future().confirmed, Future().end)
                && 2 * |rx| + |msgs| < old(2 * |rx| + |msgs|) && r == old(r) + 1
      ensures res != Continue ==> confirmed == old(confirmed) && r == old(r)
      ensures res == Finished ==> old(Future()) == Outcome([], Closed)
      ensures res == Blocked ==> old(Future()) == Outcome([], Waiting)
      ensures res.Error? ==> old(Future()) == Outcome([], Failed(res.error))
    {
      hide EndOf, IsReady;
      var ready := AwaitReady();
      if ready.None? {
        if msgs == map[] {
          return Finished;
        }
        return Error(ClosedWithPending);
      }
      var id := ready.value;
      var group := msgs[id];
      RemoveShrinks(msgs, id);
      msgs := msgs - {id};
      var end := HashAndCompare(id, group);
      match end
      case Stalled => return Blocked;
      case Rejected(error) => return Error(error);
      case Confirmed =>
        r := r + 1;
        confirmed := confirmed + [Group(id, group)];
        return Continue;
    }

    /**
      Runs the echo beside the computation.  The computation resolves after `computationAfter`
      further echo rounds, or when the echo is over, whichever comes first.
    */
    method WrapExecution(computationAfter: nat, computationOk: bool) returns (res: WrapResult)
      requires Valid() && confirmed == []
      modifies this
      ensures res == Combine(old(Future()).end, computationOk, computationAfter <= |old(Future()).confirmed|)
      ensures res == Success <==> computationOk && old(Future()).end == Closed
      ensures res == Never <==> computationOk && old(Future()).end == Waiting
      ensures forall error :: res == EchoError(error) <==>
                && old(Future()).end == Failed(error)
                && (computationOk || |old(Future()).confirmed| < computationAfter)
      ensures confirmed <= old(Future()).confirmed
      ensures res == Success ==> confirmed == old(Future()).confirmed
    {
      hide Run;
      var computationDone := false;
      var rounds := 0;
      ghost var whole := Future();
      while true
        invariant Valid() && rounds == |confirmed|
        invariant whole == Outcome(confirmed + Future().confirmed, Future().end)
        invariant computationDone ==> computationOk && computationAfter <= rounds
        invariant !computationDone ==> rounds <= computationAfter
        decreases 2 * |rx| + |msgs|, !computationDone
      {
        if !computationDone && rounds == computationAfter {
          if !computationOk {
            return ComputationError;
          }
          computationDone := true;
          continue;
        }
        ghost var before, coming := confirmed, Future();
        var progress := ProceedRound();
        match progress
        case Finished =>
          return if computationOk then Success else ComputationError;
        case Error(error) =>
          return EchoError(error);
        case Blocked =>
          return if computationOk then Never else ComputationError;
        case Continue =>
          rounds := rounds + 1;
          assert confirmed == before + [confirmed[|before|]];
          assert whole.confirmed == before + coming.confirmed;
          assert before + ([confirmed[|before|]] + Future().confirmed) == confirmed + Future().confirmed;
      }
    }
  }

  /**
    Echo closure: a wrapped execution that succeeds had a successful computation, and everything
    ever handed to the gadget is in the confirmed groups, each full and met by n - 1 equal hashes.
  */
  lemma EchoClosure(env: Env, rx: seq<EchoMessage>, computationOk: bool, computationFirst: bool, id: nat)
    requires env.n >= 2
    requires Combine(Run(env, map[], rx).end, computationOk, computationFirst) == Success
    ensures computationOk
    ensures Gathered(Run(env, map[], rx).confirmed, id) == WithId(rx, id)
    ensures forall g :: g in Run(env, map[], rx).confirmed ==>
              Confirmation(env.n, g.messages, env.replies(g.id), env.hash)
  {
    ClosedConserves(env, map[], rx, id);
    ConfirmedGroups(env, map[], rx);
    assert Held(map[], id) == [];
  }

  /**
    For the streams an execution produces, success means exactly that the computation succeeded
    and that blocks received, broadcasts sent and rounds confirmed are the same number.
  */
  lemma SuccessIff(env: Env, self: nat, turns: seq<Turn>, sessionId: Bytes, computationOk: bool, computationFirst: bool)
    requires Session(env.n, self)
    ensures var s := PollAll(turns, sessionId, env.n, self);
            var o := Run(env, map[], s.echo);
            Combine(o.end, computationOk, computationFirst) == Success <==>
            computationOk && s.inbox.next == s.nextOut == |o.confirmed|
  {
    ExecutionDrivesRounds(turns, sessionId, env, self);
  }
}
