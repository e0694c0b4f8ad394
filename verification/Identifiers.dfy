/**
  Key share identifiers across sessions.

  Key generation numbers the sorted peers 1..n and stores the numbers with the key share.  A
  later signing session has its own, smaller, sorted peer set; its session indices are mapped
  back to the stored identifiers.
*/
module Identifiers {
  import opened Basics
  import opened Messages
  import opened Peers
  import opened Signing

  datatype Participant = Participant(peerId: string, identifier: nat)

  datatype KeyShare = KeyShare(identifier: nat, maxSigners: nat, participants: seq<Participant>)

  /** The text form of peer ids: base58 and its parser. */
  datatype Text = Text(show: PeerId -> string, parse: string -> Option<PeerId>)

  ghost predicate Readable(text: Text) {
    forall p: PeerId :: text.parse(text.show(p)) == Some(p)
  }

  /** What key generation stores: sorted peers numbered from one, in 16 bits. */
  function Participants(text: Text, peers: seq<PeerId>): (r: seq<Participant>)
    ensures |r| == |peers|
  {
    seq(|peers|, i requires 0 <= i < |peers| => Participant(text.show(peers[i]), (i % 0x1_0000 + 1) % 0x1_0000))
  }

  datatype MapError =
    | NoMapping
    | BadPeerId
    | IdentifierZero
    | ExceedsMaxSigners
    | DuplicateIdentifier
    | DuplicatePeer
    | PeerNotInKeyShare
    | LocalNotInKeyShare

  /** Identifiers in a table have been checked to be one-based. */
  type Identifier = k: nat | k >= 1 witness 1
  type Table = map<PeerId, Identifier>

  /** Party numbers are zero-based. */
  function PartyNumber(id: Identifier): nat {
    id as nat - 1
  }

  /** Reads the stored participants into a table, checking each against those before it. */
  function ReadTable(text: Text, stored: seq<Participant>, max: nat, table: Table,
                     used: set<nat>): Result<Table, MapError>
  {
    if stored == [] then Ok(table)
    else
      var s := stored[0];
      match text.parse(s.peerId)
      case None => Err(BadPeerId)
      case Some(p) =>
        if s.identifier == 0 then Err(IdentifierZero)
        else if s.identifier > max then Err(ExceedsMaxSigners)
        else if s.identifier in used then Err(DuplicateIdentifier)
        else if p in table then Err(DuplicatePeer)
        else ReadTable(text, stored[1..], max, table[p := s.identifier], used + {s.identifier})
  }

  /** Zero-based party numbers of the session's peers, in session order. */
  function LookUp(table: Table, peers: seq<PeerId>): Result<seq<nat>, MapError> {
    if peers == [] then Ok([])
    else if peers[0] !in table then Err(PeerNotInKeyShare)
    else
      match LookUp(table, peers[1..])
      case Err(e) => Err(e)
      case Ok(rest) => Ok([PartyNumber(table[peers[0]])] + rest)
  }

  function MapParties(text: Text, peers: seq<PeerId>, local: PeerId, share: KeyShare): Result<(seq<nat>, nat), MapError>
  {
    if share.participants == [] then Err(NoMapping)
    else
      match ReadTable(text, share.participants, share.maxSigners, map[], {})
      case Err(e) => Err(e)
      case Ok(table) =>
        match LookUp(table, peers)
        case Err(e) => Err(e)
        case Ok(parties) => if local !in table then Err(LocalNotInKeyShare) else Ok((parties, table[local]))
  }

  /** The signers' identifiers, from the mapped party numbers. */
  function SigningParticipants(parties: seq<nat>): seq<nat> {
    seq(|parties|, i requires 0 <= i < |parties| => parties[i] + 1)
  }

  // ---- As written, with loops ----

  method KeySharePartiesForPeers(text: Text, peers: seq<PeerId>, local: PeerId, share: KeyShare)
    returns (r: Result<(seq<nat>, nat), MapError>)
    ensures r == MapParties(text, peers, local, share)
  {
    if share.participants == [] {
      return Err(NoMapping);
    }
    var read := IdentifierTable(text, share);
    if read.Err? {
      return Err(read.error);
    }
    var identifiers := read.value;
    var mapped: seq<nat> := [];
    assert peers[0..] == peers;
    ghost var whole := LookUp(identifiers, peers);
    assert whole.Ok? ==> [] + whole.value == whole.value;
    for i := 0 to |peers|
      invariant LookUp(identifiers, peers) ==
        match LookUp(identifiers, peers[i..]) case Err(e) => Err(e) case Ok(rest) => Ok(mapped + rest)
    {
      assert peers[i..][0] == peers[i] && peers[i..][1..] == peers[i + 1..];
      if peers[i] !in identifiers {
        return Err(PeerNotInKeyShare);
      }
      ghost var tail := LookUp(identifiers, peers[i + 1..]);
      if tail.Ok? {
        Regroup(mapped, [PartyNumber(identifiers[peers[i]])], tail.value);
      }
      mapped := mapped + [PartyNumber(identifiers[peers[i]])];
    }
    assert peers[|peers|..] == [] && mapped + [] == mapped;
    if local !in identifiers {
      return Err(LocalNotInKeyShare);
    }
    r := Ok((mapped, identifiers[local]));
  }

  method IdentifierTable(text: Text, share: KeyShare) returns (r: Result<Table, MapError>)
    ensures r == ReadTable(text, share.participants, share.maxSigners, map[], {})
  {
    var identifiers: Table := map[];
    var used: set<nat> := {};
    var stored := share.participants;
    assert stored[0..] == stored;
    for i := 0 to |stored|
      invariant ReadTable(text, stored[i..], share.maxSigners, identifiers, used)
             == ReadTable(text, stored, share.maxSigners, map[], {})
    {
      var s := stored[i];
      assert stored[i..][0] == s && stored[i..][1..] == stored[i + 1..];
      var p := text.parse(s.peerId);
      if p.None? {
        return Err(BadPeerId);
      }
      if s.identifier == 0 {
        return Err(IdentifierZero);
      }
      if s.identifier > share.maxSigners {
        return Err(ExceedsMaxSigners);
      }
      if s.identifier in used {
        return Err(DuplicateIdentifier);
      }
      used := used + {s.identifier};
      if p.value in identifiers {
        return Err(DuplicatePeer);
      }
      identifiers := identifiers[p.value := s.identifier];
    }
    r := Ok(identifiers);
  }

  // ---- Any accepted key share is sound ----

  /** Different peers have different identifiers, all within 1..max. */
  ghost predicate SoundTable(table: Table, max: nat) {
    && (forall p :: p in table ==> 1 <= table[p] <= max)
    && (forall p, q :: p in table && q in table && p != q ==> table[p] != table[q])
  }

  lemma {:induction false} ReadTableSound(text: Text, stored: seq<Participant>, max: nat, table: Table, used: set<nat>)
    requires SoundTable(table, max) && used == table.Values
    requires ReadTable(text, stored, max, table, used).Ok?
    ensures SoundTable(ReadTable(text, stored, max, table, used).value, max)
  {
    if stored != [] {
      var p, id := text.parse(stored[0].peerId).value, stored[0].identifier;
      var table' := table[p := id];
      assert forall q :: q in table ==> table[q] in used;
      assert table'.Values == used + {id} by {
        assert table'[p] == id;
        assert forall q :: q in table ==> table'[q] == table[q];
      }
      ReadTableSound(text, stored[1..], max, table', used + {id});
    }
  }

  lemma {:induction false} LookUpIs(table: Table, peers: seq<PeerId>)
    requires LookUp(table, peers).Ok?
    ensures |LookUp(table, peers).value| == |peers|
    ensures forall j :: 0 <= j < |peers| ==> peers[j] in table && LookUp(table, peers).value[j] + 1 == table[peers[j]]
  {
    if peers != [] {
      LookUpIs(table, peers[1..]);
      assert forall j :: 0 < j < |peers| ==> peers[j] == peers[1..][j - 1];
    }
  }

  /** The peer that entry i names. */
  function Named(text: Text, stored: seq<Participant>, i: nat): Option<PeerId>
    requires i < |stored|
  {
    text.parse(stored[i].peerId)
  }

  /** Each entry names a peer and has an identifier within 1..max, neither of which is taken. */
  ghost predicate Entries(text: Text, stored: seq<Participant>, max: nat, table: Table, used: set<nat>) {
    forall i :: 0 <= i < |stored| ==>
      && Named(text, stored, i).Some? && Named(text, stored, i).value !in table
      && 1 <= stored[i].identifier <= max && stored[i].identifier !in used
  }

  /** No two entries share a peer or an identifier. */
  ghost predicate Apart(text: Text, stored: seq<Participant>) {
    forall i, j :: 0 <= i < j < |stored| ==>
      Named(text, stored, i) != Named(text, stored, j) && stored[i].identifier != stored[j].identifier
  }

  /** The table has the entries beside what it had. */
  ghost predicate TableHolds(text: Text, stored: seq<Participant>, table: Table, result: Table) {
    && (forall p :: p in table ==> p in result && result[p] == table[p])
    && (forall i :: 0 <= i < |stored| ==>
         var p := Named(text, stored, i); p.Some? && p.value in result && result[p.value] == stored[i].identifier)
    && (forall p :: p in result && p !in table ==> exists i :: 0 <= i < |stored| && Named(text, stored, i) == Some(p))
  }

  /** A stored mapping is accepted if and only if its entries are good and apart; the table has just those. */
  lemma {:induction false} ReadTableIff(text: Text, stored: seq<Participant>, max: nat, table: Table, used: set<nat>)
    ensures ReadTable(text, stored, max, table, used).Ok? <==>
            Entries(text, stored, max, table, used) && Apart(text, stored)
    ensures ReadTable(text, stored, max, table, used).Ok? ==>
            TableHolds(text, stored, table, ReadTable(text, stored, max, table, used).value)
  {
    if stored != [] {
      hide Entries, Apart, TableHolds;
      var s, rest := stored[0], stored[1..];
      FirstEntry(text, stored, max, table, used);
      if FirstFits(text, s, max, table, used) {
        var p := text.parse(s.peerId).value;
        var table' := table[p := s.identifier];
        ReadTableIff(text, rest, max, table', used + {s.identifier});
        var read := ReadTable(text, rest, max, table', used + {s.identifier});
        if read.Ok? {
          HoldsFirst(text, stored, table, p, read.value);
        }
      }
    } else {
      assert Entries(text, stored, max, table, used) && Apart(text, stored) && TableHolds(text, stored, table, table);
    }
  }

  predicate FirstFits(text: Text, s: Participant, max: nat, table: Table, used: set<nat>) {
    && text.parse(s.peerId).Some? && text.parse(s.peerId).value !in table
    && 1 <= s.identifier <= max && s.identifier !in used
  }

  lemma FirstEntry(text: Text, stored: seq<Participant>, max: nat, table: Table, used: set<nat>)
    requires stored != []
    ensures var s := stored[0];
            Entries(text, stored, max, table, used) && Apart(text, stored) <==>
              && FirstFits(text, s, max, table, used)
              && var table' := table[text.parse(s.peerId).value := s.identifier];
                 Entries(text, stored[1..], max, table', used + {s.identifier}) && Apart(text, stored[1..])
  {
    hide Entries, Apart, FirstFits;
    if Entries(text, stored, max, table, used) && Apart(text, stored) {
      EntriesSplit(text, stored, max, table, used);
    }
    if FirstFits(text, stored[0], max, table, used) {
      assert text.parse(stored[0].peerId).Some? && stored[0].identifier >= 1 by {
        FitsNamed(text, stored[0], max, table, used);
      }
      var table' := table[text.parse(stored[0].peerId).value := stored[0].identifier];
      if Entries(text, stored[1..], max, table', used + {stored[0].identifier}) && Apart(text, stored[1..]) {
        EntriesJoin(text, stored, max, table, used);
      }
    }
  }

  lemma FitsNamed(text: Text, s: Participant, max: nat, table: Table, used: set<nat>)
    requires FirstFits(text, s, max, table, used)
    ensures text.parse(s.peerId).Some? && s.identifier >= 1
  {
  }

  lemma EntriesSplit(text: Text, stored: seq<Participant>, max: nat, table: Table, used: set<nat>)
    requires stored != [] && Entries(text, stored, max, table, used) && Apart(text, stored)
    ensures var s := stored[0];
            && FirstFits(text, s, max, table, used)
            && var table' := table[text.parse(s.peerId).value := s.identifier];
               Entries(text, stored[1..], max, table', used + {s.identifier}) && Apart(text, stored[1..])
  {
    var s, rest := stored[0], stored[1..];
    assert Named(text, stored, 0) == text.parse(s.peerId);
    forall i | 0 <= i < |rest|
      ensures rest[i] == stored[i + 1] && Named(text, rest, i) == Named(text, stored, i + 1)
      ensures Named(text, rest, i) != text.parse(s.peerId) && rest[i].identifier != s.identifier
    {
      assert Named(text, stored, 0) != Named(text, stored, i + 1);
    }
  }

  lemma EntriesJoin(text: Text, stored: seq<Participant>, max: nat, table: Table, used: set<nat>)
    requires stored != [] && FirstFits(text, stored[0], max, table, used)
    requires var s := stored[0];
             var table' := table[text.parse(s.peerId).value := s.identifier];
             Entries(text, stored[1..], max, table', used + {s.identifier}) && Apart(text, stored[1..])
    ensures Entries(text, stored, max, table, used) && Apart(text, stored)
  {
    var s, rest := stored[0], stored[1..];
    forall i | 0 <= i < |stored|
      ensures Named(text, stored, i).Some? && Named(text, stored, i).value !in table
      ensures 1 <= stored[i].identifier <= max && stored[i].identifier !in used
    {
      assert i > 0 ==> stored[i] == rest[i - 1] && Named(text, rest, i - 1).Some?;
    }
    forall i, j | 0 <= i < j < |stored|
      ensures Named(text, stored, i) != Named(text, stored, j) && stored[i].identifier != stored[j].identifier
    {
      assert stored[j] == rest[j - 1] && Named(text, rest, j - 1).Some?;
      assert i > 0 ==> stored[i] == rest[i - 1] && Named(text, rest, i - 1) != Named(text, rest, j - 1);
    }
  }

  lemma HoldsFirst(text: Text, stored: seq<Participant>, table: Table, p: PeerId, result: Table)
    requires stored != [] && text.parse(stored[0].peerId) == Some(p) && p !in table && stored[0].identifier >= 1
    requires TableHolds(text, stored[1..], table[p := stored[0].identifier], result)
    ensures TableHolds(text, stored, table, result)
  {
    var rest := stored[1..];
    assert Named(text, stored, 0) == Some(p);
    forall i | 0 <= i < |stored|
      ensures var q := Named(text, stored, i); q.Some? && q.value in result && result[q.value] == stored[i].identifier
    {
      assert i > 0 ==> Named(text, stored, i) == Named(text, rest, i - 1);
    }
    forall q | q in result && q !in table ensures exists i :: 0 <= i < |stored| && Named(text, stored, i) == Some(q) {
      if q != p {
        var i :| 0 <= i < |rest| && Named(text, rest, i) == Some(q);
        assert Named(text, stored, i + 1) == Some(q);
      }
    }
  }

  /** An entry of the share gives the peer that identifier. */
  ghost predicate Assigned(text: Text, share: KeyShare, p: PeerId, identifier: nat) {
    exists i :: 0 <= i < |share.participants| && share.participants[i].identifier == identifier
             && Named(text, share.participants, i) == Some(p)
  }

  /** The share has an entry for the peer. */
  ghost predicate Listed(text: Text, share: KeyShare, p: PeerId) {
    exists i :: 0 <= i < |share.participants| && Named(text, share.participants, i) == Some(p)
  }

  lemma TableAssigns(text: Text, share: KeyShare, table: Table)
    requires TableHolds(text, share.participants, map[], table)
    ensures forall p :: p in table <==> Listed(text, share, p)
    ensures forall p :: p in table ==> Assigned(text, share, p, table[p])
  {
    var stored := share.participants;
    forall p | p in table ensures Assigned(text, share, p, table[p]) {
      var i :| 0 <= i < |stored| && Named(text, stored, i) == Some(p);
      assert stored[i].identifier == table[p];
    }
  }

  /**
    Which shares and sessions are accepted, and with which numbers: the share has entries, all good and
    apart, and one for each peer and the local one; parties and identifier are those of the entries.
  */
  lemma MapPartiesIff(text: Text, peers: seq<PeerId>, local: PeerId, share: KeyShare)
    ensures var stored := share.participants;
            var r := MapParties(text, peers, local, share);
            && (r.Ok? <==>
                 && stored != [] && Entries(text, stored, share.maxSigners, map[], {}) && Apart(text, stored)
                 && Listed(text, share, local) && forall j :: 0 <= j < |peers| ==> Listed(text, share, peers[j]))
            && (r.Ok? ==>
                 && |r.value.0| == |peers| && Assigned(text, share, local, r.value.1)
                 && forall j :: 0 <= j < |peers| ==> Assigned(text, share, peers[j], r.value.0[j] + 1))
  {
    hide Entries, Apart, TableHolds, Assigned, Listed, ReadTable;
    var stored := share.participants;
    ReadTableIff(text, stored, share.maxSigners, map[], {});
    var read := ReadTable(text, stored, share.maxSigners, map[], {});
    if stored != [] && read.Ok? {
      var table := read.value;
      TableAssigns(text, share, table);
      LookUpSucceeds(table, peers);
      if LookUp(table, peers).Ok? {
        LookUpIs(table, peers);
      }
    }
  }

  /**
    Accepted key shares are sound: whatever was stored, if the mapping succeeds on distinct peers
    that include the local one, the signers' identifiers are distinct, within 1..max, and include
    the local identifier.  So the collection loops' size tests are exact.
  */
  lemma AcceptedShareIsSound(text: Text, peers: seq<PeerId>, local: PeerId, share: KeyShare)
    requires Distinct(peers) && local in peers && MapParties(text, peers, local, share).Ok?
    ensures var (parties, self) := MapParties(text, peers, local, share).value;
            var ids := SigningParticipants(parties);
            && |ids| == |peers| && Roster(ids, self)
            && forall i :: 0 <= i < |ids| ==> 1 <= ids[i] <= share.maxSigners
  {
    var table := ReadTable(text, share.participants, share.maxSigners, map[], {}).value;
    ReadTableSound(text, share.participants, share.maxSigners, map[], {});
    LookUpIs(table, peers);
    var (parties, self) := MapParties(text, peers, local, share).value;
    var ids := SigningParticipants(parties);
    assert forall j :: 0 <= j < |peers| ==> ids[j] == table[peers[j]];
    var j :| 0 <= j < |peers| && peers[j] == local;
    assert ids[j] == self;
  }

  /** With such a share, signing can never end in a "missing participants" error. */
  lemma AcceptedShareNothingMissing<C, S>(text: Text, peers: seq<PeerId>, local: PeerId, share: KeyShare,
                                          codec: Codec<C, S>, own: C, sign: map<nat, C> -> Option<S>,
                                          rx: seq<ProtocolMessage>)
    requires Distinct(peers) && local in peers && MapParties(text, peers, local, share).Ok?
    ensures var (parties, self) := MapParties(text, peers, local, share).value;
            var r := RunSigning(codec, SigningParticipants(parties), self, own, sign, rx);
            r != Err(MissingCommitments) && r != Err(MissingShares)
  {
    AcceptedShareIsSound(text, peers, local, share);
    var (parties, self) := MapParties(text, peers, local, share).value;
    NothingMissing(codec, SigningParticipants(parties), self, own, sign, rx);
  }

  // ---- Identifier recovery ----

  /** The table of the first k peers of a key generation. */
  function KeygenTable(peers: seq<PeerId>, k: nat): Table
    requires k <= |peers|
  {
    if k == 0 then map[] else KeygenTable(peers, k - 1)[peers[k - 1] := k]
  }

  lemma {:induction false} KeygenTableIs(peers: seq<PeerId>, k: nat)
    requires k <= |peers| && Distinct(peers)
    ensures forall p :: p in KeygenTable(peers, k) <==> p in peers[..k]
    ensures forall i :: 0 <= i < k ==> KeygenTable(peers, k)[peers[i]] == i + 1
  {
    if k > 0 {
      KeygenTableIs(peers, k - 1);
      assert peers[..k] == peers[..k - 1] + [peers[k - 1]];
      forall i | 0 <= i < k ensures KeygenTable(peers, k)[peers[i]] == i + 1 {
        assert i < k - 1 ==> peers[i] in peers[..k - 1] && peers[i] != peers[k - 1];
      }
    }
  }

  lemma {:induction false} ReadKeygenTable(text: Text, peers: seq<PeerId>, k: nat)
    requires Readable(text) && Distinct(peers) && k <= |peers| <= 0xFFFF
    ensures ReadTable(text, Participants(text, peers)[k..], |peers|, KeygenTable(peers, k), UpTo(k))
            == Ok(KeygenTable(peers, |peers|))
    decreases |peers| - k
  {
    var stored := Participants(text, peers);
    if k < |peers| {
      KeygenTableIs(peers, k);
      assert stored[k..][0] == stored[k] == Participant(text.show(peers[k]), k + 1);
      assert stored[k..][1..] == stored[k + 1..];
      assert peers[k] !in peers[..k];
      ReadKeygenTable(text, peers, k + 1);
    }
  }

  lemma {:induction false} LookUpSucceeds(table: Table, peers: seq<PeerId>)
    ensures LookUp(table, peers).Ok? <==> forall j :: 0 <= j < |peers| ==> peers[j] in table
  {
    if peers != [] {
      LookUpSucceeds(table, peers[1..]);
      assert forall j :: 0 < j < |peers| ==> peers[j] == peers[1..][j - 1];
    }
  }

  /** Parties of a share from a key generation over `keygen`, as stored by the member with that identifier. */
  ghost predicate FromKeygen(text: Text, keygen: seq<PeerId>, share: KeyShare) {
    && share.participants == Participants(text, keygen)
    && share.maxSigners == |keygen|
  }

  /** The stored participants of a key generation read back as its numbering. */
  lemma StoredNumbering(text: Text, keygen: seq<PeerId>, share: KeyShare)
    requires Readable(text) && Ascending(keygen) && |keygen| <= 0xFFFF && FromKeygen(text, keygen, share)
    ensures ReadTable(text, share.participants, share.maxSigners, map[], {}) == Ok(KeygenTable(keygen, |keygen|))
  {
    AscendingDistinct(keygen);
    assert Participants(text, keygen)[0..] == share.participants;
    ReadKeygenTable(text, keygen, 0);
  }

  lemma NumberingInverse(keygen: seq<PeerId>)
    requires Ascending(keygen)
    ensures forall p :: p in KeygenTable(keygen, |keygen|) <==> p in keygen
    ensures forall p :: p in KeygenTable(keygen, |keygen|) ==>
              var id := KeygenTable(keygen, |keygen|)[p]; id <= |keygen| && keygen[PartyNumber(id)] == p
  {
    AscendingDistinct(keygen);
    KeygenTableIs(keygen, |keygen|);
    assert keygen[..|keygen|] == keygen;
    var table := KeygenTable(keygen, |keygen|);
    forall p | p in table ensures table[p] <= |keygen| && keygen[PartyNumber(table[p])] == p {
      var i :| 0 <= i < |keygen| && keygen[i] == p;
      assert table[keygen[i]] == i + 1;
    }
  }

  /** The mapping of a share from key generation succeeds exactly on its members, and inverts its numbering. */
  lemma KeygenParties(text: Text, keygen: seq<PeerId>, peers: seq<PeerId>, local: PeerId, share: KeyShare)
    requires Readable(text) && Ascending(keygen) && 1 <= |keygen| <= 0xFFFF && FromKeygen(text, keygen, share)
    ensures MapParties(text, peers, local, share).Ok? <==>
        local in keygen && forall j :: 0 <= j < |peers| ==> peers[j] in keygen
    ensures MapParties(text, peers, local, share).Ok? ==>
              var (parties, self) := MapParties(text, peers, local, share).value;
              && |parties| == |peers|
              && (forall j :: 0 <= j < |peers| ==> parties[j] < |keygen| && keygen[parties[j]] == peers[j])
              && 1 <= self <= |keygen| && keygen[self - 1] == local
  {
    StoredNumbering(text, keygen, share);
    hide Readable, ReadTable, LookUp, KeygenTable, Ascending;
    var table := KeygenTable(keygen, |keygen|);
    NumberingInverse(keygen);
    LookUpSucceeds(table, peers);
    if LookUp(table, peers).Ok? {
      LookUpIs(table, peers);
    }
  }

  /**
    Identifier recovery: for a key generation among `keygen` and any signing subset of it, mapping
    a sender's session index through the stored participants gives exactly the identifier that the
    sender had in key generation, and the signers' identifiers are strictly increasing.
  */
  lemma IdentifierRecovery(text: Text, keygen: seq<PeerId>, signers: seq<PeerId>, local: PeerId, share: KeyShare,
                           j: nat)
    requires Readable(text) && Ascending(keygen) && 1 <= |keygen| <= 0xFFFF && FromKeygen(text, keygen, share)
    requires Ascending(signers) && (forall p :: p in signers ==> p in keygen) && local in signers && j < |signers|
    ensures MapParties(text, signers, local, share).Ok?
    ensures var (parties, self) := MapParties(text, signers, local, share).value;
            var ids := SigningParticipants(parties);
            && ParticipantFor(j + 1, ids) == Ok(FirstIndex(keygen, signers[j]).value + 1)
            && self == FirstIndex(keygen, local).value + 1
            && forall a, b :: 0 <= a < b < |ids| ==> ids[a] < ids[b]
  {
    hide Readable, FromKeygen, MapParties, Ascending, FirstIndex;
    KeygenParties(text, keygen, signers, local, share);
    assert forall i :: 0 <= i < |signers| ==> signers[i] in signers;
    var (parties, self) := MapParties(text, signers, local, share).value;
    IndexAt(keygen, parties[j]);
    IndexAt(keygen, self - 1);
    OrderKept(keygen, signers, parties);
  }

  /** Positions of an ascending list in another ascend. */
  lemma OrderKept(keygen: seq<PeerId>, signers: seq<PeerId>, parties: seq<nat>)
    requires Ascending(keygen) && Ascending(signers) && |parties| == |signers|
    requires forall j :: 0 <= j < |signers| ==> parties[j] < |keygen| && keygen[parties[j]] == signers[j]
    ensures forall a, b :: 0 <= a < b < |parties| ==> parties[a] < parties[b]
  {
    forall a, b | 0 <= a < b < |parties| ensures parties[a] < parties[b] {
      assert Less(signers[a], signers[b]);
      OrderReflected(keygen, parties[a], parties[b]);
    }
  }

  lemma OrderReflected(peers: seq<PeerId>, a: nat, b: nat)
    requires Ascending(peers) && a < |peers| && b < |peers| && Less(peers[a], peers[b])
    ensures a < b
  {
    LessIrreflexive(peers[a]);
    if b < a {
      LessTransitive(peers[a], peers[b], peers[a]);
    }
  }

  /** All members of a signing session compute the same list of signers. */
  lemma SameSigners(text: Text, keygen: seq<PeerId>, signers: seq<PeerId>, p: PeerId, q: PeerId, shareP: KeyShare,
                    shareQ: KeyShare)
    requires Readable(text) && Ascending(keygen) && 1 <= |keygen| <= 0xFFFF
    requires FromKeygen(text, keygen, shareP) && FromKeygen(text, keygen, shareQ)
    requires (forall x :: x in signers ==> x in keygen) && p in signers && q in signers
    ensures MapParties(text, signers, p, shareP).Ok? && MapParties(text, signers, q, shareQ).Ok?
    ensures MapParties(text, signers, p, shareP).value.0 == MapParties(text, signers, q, shareQ).value.0
  {
    assert forall i :: 0 <= i < |signers| ==> signers[i] in signers;
    KeygenParties(text, keygen, signers, p, shareP);
    KeygenParties(text, keygen, signers, q, shareQ);
  }
}
