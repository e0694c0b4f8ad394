/**
  The echo gadget: groups n broadcasts per number, hashes them in sender order, acknowledges
  every remote with the hash, and confirms the round when n - 1 equal hashes have come back.
*/
module Echo {
  import opened Basics
  import opened Messages

  type Groups = map<nat, seq<EchoMessage>>

  /** What a remote answered to this party's own broadcast. */
  datatype Reply = Hash(hash: Bytes) | RequestFailure

  /** `InconsistentEcho` is raised for a repeated sender and for a hash that differs. */
  datatype EchoError =
    | DuplicateSender(sender: nat)
    | HashMismatch(index: nat)
    | EchoFailed
    | ClosedWithPending

  /** How one round ends; a round whose replies never all come does not end. */
  datatype RoundEnd = Confirmed | Rejected(error: EchoError) | Stalled

  // ---- Sorting a group by sender ----

  function Insert(e: EchoMessage, g: seq<EchoMessage>): (r: seq<EchoMessage>)
    ensures |r| == |g| + 1
    ensures forall x :: x in r <==> x == e || x in g
  {
    if g == [] || e.sender <= g[0].sender then [e] + g
    else
      var r := [g[0]] + Insert(e, g[1..]);
      assert g == [g[0]] + g[1..];
      r
  }

  function SortBySender(g: seq<EchoMessage>): (r: seq<EchoMessage>)
    ensures |r| == |g|
    ensures forall x :: x in r <==> x in g
  {
    if g == [] then []
    else
      assert g == [g[0]] + g[1..];
      Insert(g[0], SortBySender(g[1..]))
  }

  ghost predicate Sorted(g: seq<EchoMessage>) {
    forall i, j :: 0 <= i < j < |g| ==> g[i].sender <= g[j].sender
  }

  ghost predicate Distinct(g: seq<EchoMessage>) {
    forall i, j :: 0 <= i < j < |g| ==> g[i].sender != g[j].sender
  }

  lemma Prepend(e: EchoMessage, g: seq<EchoMessage>)
    ensures Sorted(g) && (forall x :: x in g ==> e.sender <= x.sender) ==> Sorted([e] + g)
    ensures Distinct(g) && (forall x :: x in g ==> e.sender != x.sender) ==> Distinct([e] + g)
  {
    assert forall k :: 0 <= k < |g| ==> g[k] in g;
  }

  lemma Tail(g: seq<EchoMessage>)
    requires g != []
    ensures Sorted(g) ==> Sorted(g[1..]) && forall x :: x in g[1..] ==> g[0].sender <= x.sender
    ensures Distinct(g) ==> Distinct(g[1..]) && forall x :: x in g[1..] ==> g[0].sender != x.sender
  {
    forall x | x in g[1..]
      ensures exists k :: 0 < k < |g| && g[k] == x
    {
      var k :| 0 <= k < |g[1..]| && g[1..][k] == x;
      assert g[k + 1] == x;
    }
  }

  lemma {:induction false} InsertSorted(e: EchoMessage, g: seq<EchoMessage>)
    requires Sorted(g)
    ensures Sorted(Insert(e, g))
  {
    if g == [] || e.sender <= g[0].sender {
      Prepend(e, g);
    } else {
      Tail(g);
      InsertSorted(e, g[1..]);
      Prepend(g[0], Insert(e, g[1..]));
    }
  }

  lemma {:induction false} InsertDistinct(e: EchoMessage, g: seq<EchoMessage>)
    requires Distinct(g) && forall x :: x in g ==> x.sender != e.sender
    ensures Distinct(Insert(e, g))
  {
    if g == [] || e.sender <= g[0].sender {
      Prepend(e, g);
    } else {
      Tail(g);
      InsertDistinct(e, g[1..]);
      Prepend(g[0], Insert(e, g[1..]));
    }
  }

  lemma {:induction false} SortSorts(g: seq<EchoMessage>)
    ensures Sorted(SortBySender(g))
    ensures Distinct(g) ==> Distinct(SortBySender(g))
  {
    if g != [] {
      Tail(g);
      SortSorts(g[1..]);
      InsertSorted(g[0], SortBySender(g[1..]));
      if Distinct(g) {
        InsertDistinct(g[0], SortBySender(g[1..]));
      }
    }
  }

  // ---- One round ----

  function Payloads(g: seq<EchoMessage>): seq<Bytes> {
    seq(|g|, i requires 0 <= i < |g| => g[i].payload)
  }

  /** The hash of a group: of its payloads in sender order, with nothing between them. */
  function GroupHash(g: seq<EchoMessage>, hash: Bytes -> Bytes): Bytes {
    hash(Concat(Payloads(SortBySender(g))))
  }

  /** The first sender that repeats an earlier one. */
  function FirstDuplicate(g: seq<EchoMessage>, seen: set<nat>): Option<nat> {
    if g == [] then None
    else if g[0].sender in seen then Some(g[0].sender)
    else FirstDuplicate(g[1..], seen + {g[0].sender})
  }

  /** Replies are examined in the order they came; the first bad one decides the error. */
  function CheckReplies(replies: seq<Reply>, h: Bytes, index: nat): RoundEnd {
    if replies == [] then Confirmed
    else
      match replies[0]
      case RequestFailure => Rejected(EchoFailed)
      case Hash(h') => if h' != h then Rejected(HashMismatch(index)) else CheckReplies(replies[1..], h, index + 1)
  }

  function EndOf(n: nat, g: seq<EchoMessage>, replies: seq<Reply>, hash: Bytes -> Bytes): RoundEnd
    requires n >= 1
  {
    var duplicate := FirstDuplicate(SortBySender(g), {});
    if duplicate.Some? then Rejected(DuplicateSender(duplicate.value))
    else if |replies| < n - 1 then Stalled
    else CheckReplies(replies[..n - 1], GroupHash(g, hash), 0)
  }

  /** A full group of different senders, answered by n - 1 hashes equal to its own. */
  ghost predicate Confirmation(n: nat, g: seq<EchoMessage>, replies: seq<Reply>, hash: Bytes -> Bytes)
    requires n >= 1
  {
    && |g| == n
    && Distinct(SortBySender(g))
    && (exists e :: e in g && e.outgoing)
    && |replies| >= n - 1
    && (forall i :: 0 <= i < n - 1 ==> replies[i] == Hash(GroupHash(g, hash)))
  }

  lemma {:induction false} NoDuplicateIffDistinct(g: seq<EchoMessage>, seen: set<nat>)
    ensures FirstDuplicate(g, seen).None? <==> Distinct(g) && forall i :: 0 <= i < |g| ==> g[i].sender !in seen
  {
    if g != [] {
      NoDuplicateIffDistinct(g[1..], seen + {g[0].sender});
      assert forall i :: 0 < i < |g| ==> g[i] == g[1..][i - 1];
      assert Distinct(g) <==> Distinct(g[1..]) && forall i :: 0 < i < |g| ==> g[i].sender != g[0].sender;
    }
  }

  lemma {:induction false} RepliesConfirmIff(replies: seq<Reply>, h: Bytes, index: nat)
    ensures CheckReplies(replies, h, index) == Confirmed <==> forall i :: 0 <= i < |replies| ==> replies[i] == Hash(h)
    ensures CheckReplies(replies, h, index).Rejected? ==> !CheckReplies(replies, h, index).error.DuplicateSender?
    ensures CheckReplies(replies, h, index).Rejected? ==> !CheckReplies(replies, h, index).error.ClosedWithPending?
    ensures !CheckReplies(replies, h, index).Stalled?
  {
    if replies != [] {
      RepliesConfirmIff(replies[1..], h, index + 1);
      assert forall i :: 0 < i < |replies| ==> replies[i] == replies[1..][i - 1];
    }
  }

  /** A round of a ready group is confirmed exactly when all senders differ and all hashes agree. */
  lemma RoundConfirmedIff(n: nat, g: seq<EchoMessage>, replies: seq<Reply>, hash: Bytes -> Bytes)
    requires n >= 1 && |g| == n && exists e :: e in g && e.outgoing
    ensures EndOf(n, g, replies, hash) == Confirmed <==> Confirmation(n, g, replies, hash)
    ensures EndOf(n, g, replies, hash).Rejected? ==>
              !EndOf(n, g, replies, hash).error.ClosedWithPending?
    ensures Distinct(g) && EndOf(n, g, replies, hash).Rejected? ==>
              !EndOf(n, g, replies, hash).error.DuplicateSender?
  {
    hide SortBySender, GroupHash, FirstDuplicate, CheckReplies;
    SortSorts(g);
    NoDuplicateIffDistinct(SortBySender(g), {});
    if |replies| >= n - 1 {
      RepliesConfirmIff(replies[..n - 1], GroupHash(g, hash), 0);
      assert forall i :: 0 <= i < n - 1 ==> replies[..n - 1][i] == replies[i];
    }
  }

  // ---- The run of a gadget ----

  function Held(msgs: Groups, id: nat): seq<EchoMessage> {
    if id in msgs then msgs[id] else []
  }

  function Receive(msgs: Groups, e: EchoMessage): Groups {
    msgs[e.id := Held(msgs, e.id) + [e]]
  }

  predicate IsReady(n: nat, g: seq<EchoMessage>) {
    |g| == n && exists e :: e in g && e.outgoing
  }

  ghost predicate ReadyAt(n: nat, msgs: Groups, id: nat) {
    id in msgs && IsReady(n, msgs[id])
  }

  ghost predicate LeastReady(n: nat, msgs: Groups, id: nat) {
    ReadyAt(n, msgs, id) && forall other: nat :: ReadyAt(n, msgs, other) ==> id <= other
  }

  lemma {:induction false} LeastReadyExists(n: nat, msgs: Groups, id: nat)
    requires ReadyAt(n, msgs, id)
    ensures exists least: nat :: LeastReady(n, msgs, least)
  {
    if !LeastReady(n, msgs, id) {
      var smaller: nat :| ReadyAt(n, msgs, smaller) && smaller < id;
      LeastReadyExists(n, msgs, smaller);
    }
  }

  /** The lowest numbered group that is full and holds this party's own broadcast. */
  ghost function FirstReady(n: nat, msgs: Groups): (r: Option<nat>)
    ensures r.Some? ==> LeastReady(n, msgs, r.value)
    ensures r.None? ==> forall id: nat :: !ReadyAt(n, msgs, id)
  {
    if id: nat :| ReadyAt(n, msgs, id) then
      LeastReadyExists(n, msgs, id);
      var least: nat :| LeastReady(n, msgs, least);
      Some(least)
    else None
  }

  datatype Group = Group(id: nat, messages: seq<EchoMessage>)

  /** How the gadget's life ends: its input closed with nothing pending, an error, or no end. */
  datatype GadgetEnd = Closed | Failed(error: EchoError) | Waiting

  /** The confirmed groups, in the order of confirmation, and the end. */
  datatype Outcome = Outcome(confirmed: seq<Group>, end: GadgetEnd)

  /** The environment of a gadget: party count, hash function, and the replies to each own broadcast. */
  datatype Env = Env(n: nat, hash: Bytes -> Bytes, replies: nat -> seq<Reply>)

  /** The whole life of a gadget that holds msgs and will receive rx before its input closes. */
  ghost function Run(env: Env, msgs: Groups, rx: seq<EchoMessage>): Outcome
    requires env.n >= 1
    decreases 2 * |rx| + |msgs|
  {
    match FirstReady(env.n, msgs)
    case Some(id) =>
      (match EndOf(env.n, msgs[id], env.replies(id), env.hash)
       case Confirmed =>
         RemoveShrinks(msgs, id);
         var rest := Run(env, msgs - {id}, rx);
         rest.(confirmed := [Group(id, msgs[id])] + rest.confirmed)
       case Rejected(error) => Outcome([], Failed(error))
       case Stalled => Outcome([], Waiting))
    case None =>
      if rx != [] then
        ReceiveGrows(msgs, rx[0]);
        Run(env, Receive(msgs, rx[0]), rx[1..])
      else if msgs == map[] then Outcome([], Closed)
      else Outcome([], Failed(ClosedWithPending))
  }

  lemma RemoveShrinks(msgs: Groups, id: nat)
    requires id in msgs
    ensures |msgs - {id}| == |msgs| - 1
  {
    assert (msgs - {id}).Keys == msgs.Keys - {id};
    assert |(msgs - {id}).Keys| == |msgs.Keys| - 1;
  }

  lemma ReceiveGrows(msgs: Groups, e: EchoMessage)
    ensures |Receive(msgs, e)| <= |msgs| + 1
  {
    assert Receive(msgs, e).Keys == msgs.Keys + {e.id};
    assert |Receive(msgs, e).Keys| <= |msgs.Keys| + 1;
  }

  lemma RunReceives(env: Env, msgs: Groups, rx: seq<EchoMessage>)
    requires env.n >= 1 && FirstReady(env.n, msgs).None? && rx != []
    ensures Run(env, msgs, rx) == Run(env, Receive(msgs, rx[0]), rx[1..])
  {
  }

  lemma RunConfirms(env: Env, msgs: Groups, rx: seq<EchoMessage>, id: nat)
    requires env.n >= 1 && FirstReady(env.n, msgs) == Some(id) && Run(env, msgs, rx).end == Closed
    ensures Run(env, msgs, rx).confirmed == [Group(id, msgs[id])] + Run(env, msgs - {id}, rx).confirmed
    ensures Run(env, msgs - {id}, rx).end == Closed
  {
  }

  // ---- Closure: nothing handed to the gadget is left unconfirmed ----

  function WithId(rx: seq<EchoMessage>, id: nat): seq<EchoMessage> {
    if rx == [] then []
    else (if rx[0].id == id then [rx[0]] else []) + WithId(rx[1..], id)
  }

  /** All messages of the confirmed groups numbered id. */
  function Gathered(groups: seq<Group>, id: nat): seq<EchoMessage> {
    if groups == [] then []
    else (if groups[0].id == id then groups[0].messages else []) + Gathered(groups[1..], id)
  }

  /** If the gadget closes cleanly, the confirmed groups hold exactly what it was given. */
  lemma {:induction false} ClosedConserves(env: Env, msgs: Groups, rx: seq<EchoMessage>, id: nat)
    requires env.n >= 1 && Run(env, msgs, rx).end == Closed
    ensures Gathered(Run(env, msgs, rx).confirmed, id) == Held(msgs, id) + WithId(rx, id)
    decreases 2 * |rx| + |msgs|
  {
    var ready := FirstReady(env.n, msgs);
    if ready.Some? {
      var m := ready.value;
      RunConfirms(env, msgs, rx, m);
      RemoveShrinks(msgs, m);
      ClosedConserves(env, msgs - {m}, rx, id);
      ConserveConfirm(msgs, m, Run(env, msgs - {m}, rx).confirmed, WithId(rx, id), id);
    } else if rx != [] {
      RunReceives(env, msgs, rx);
      ReceiveGrows(msgs, rx[0]);
      ClosedConserves(env, Receive(msgs, rx[0]), rx[1..], id);
      ConserveReceive(msgs, rx, id);
    }
  }

  lemma ConserveConfirm(msgs: Groups, m: nat, rest: seq<Group>, coming: seq<EchoMessage>, id: nat)
    requires m in msgs && Gathered(rest, id) == Held(msgs - {m}, id) + coming
    ensures Gathered([Group(m, msgs[m])] + rest, id) == Held(msgs, id) + coming
  {
    GatheredCons(Group(m, msgs[m]), rest, id);
    assert m != id ==> Held(msgs, id) == Held(msgs - {m}, id);
  }

  lemma ConserveReceive(msgs: Groups, rx: seq<EchoMessage>, id: nat)
    requires rx != []
    ensures Held(Receive(msgs, rx[0]), id) + WithId(rx[1..], id) == Held(msgs, id) + WithId(rx, id)
  {
    var e, rest := rx[0], WithId(rx[1..], id);
    if e.id == id {
      Regroup(Held(msgs, id), [e], rest);
    } else {
      assert WithId(rx, id) == [] + rest == rest;
    }
  }

  lemma GatheredCons(g: Group, rest: seq<Group>, id: nat)
    ensures Gathered([g] + rest, id) == (if g.id == id then g.messages else []) + Gathered(rest, id)
  {
    assert ([g] + rest)[1..] == rest;
  }

  /** Every group in the outcome was full, of different senders, and met n - 1 equal hashes. */
  lemma {:induction false} ConfirmedGroups(env: Env, msgs: Groups, rx: seq<EchoMessage>)
    requires env.n >= 1
    ensures forall g :: g in Run(env, msgs, rx).confirmed ==>
              Confirmation(env.n, g.messages, env.replies(g.id), env.hash)
    decreases 2 * |rx| + |msgs|
  {
    match FirstReady(env.n, msgs) {
      case Some(m) =>
        RoundConfirmedIff(env.n, msgs[m], env.replies(m), env.hash);
        RemoveShrinks(msgs, m);
        ConfirmedGroups(env, msgs - {m}, rx);
      case None =>
        if rx != [] {
          ReceiveGrows(msgs, rx[0]);
          ConfirmedGroups(env, Receive(msgs, rx[0]), rx[1..]);
        }
    }
  }
}
