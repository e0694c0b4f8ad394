/**
  Key generation does not depend on arrival order: for every interleaving of the broadcasts and
  the direct packages of the other parties, both loops finish, read every message, and hand the
  protocol the same two maps.
*/
module DkgOrder {
  import opened Basics
  import opened Messages
  import opened Cbor
  import opened Dkg

  /** What a message is: the broadcast or the direct package of one other party. */
  datatype Tag = First(id: nat) | Second(id: nat)

  /** What the other parties send. */
  datatype Script<P, Q> = Script(first: map<nat, P>, second: map<nat, Q>)

  ghost predicate Carries<P, Q>(codec: Codec<P, Q>, self: nat, script: Script<P, Q>, m: ProtocolMessage, t: Tag) {
    && m.from == t.id && Decode(m.payload).Some?
    && match t
       case First(id) =>
         && m.to == None && id in script.first
         && codec.round1(Decode(m.payload).value) == Some(script.first[id])
       case Second(id) =>
         && m.to == Some(self) && id in script.second
         && codec.round2(Decode(m.payload).value) == Some(script.second[id])
  }

  ghost predicate Unrepeated(tags: seq<Tag>) {
    forall i, j :: 0 <= i < j < |tags| ==> tags[i] != tags[j]
  }

  /** One broadcast and one direct package of every other party, in any order. */
  ghost predicate Arrangement(max: nat, self: nat, tags: seq<Tag>) {
    Unrepeated(tags) && forall t :: t in tags <==> t.id in UpTo(max) && t.id != self
  }

  ghost predicate Tagged<P, Q>(codec: Codec<P, Q>, self: nat, script: Script<P, Q>, rx: seq<ProtocolMessage>,
                               tags: seq<Tag>)
  {
    |rx| == |tags| && forall i :: 0 <= i < |rx| ==> Carries(codec, self, script, rx[i], tags[i])
  }

  ghost predicate Complete<P, Q>(max: nat, self: nat, script: Script<P, Q>) {
    script.first.Keys == script.second.Keys == UpTo(max) - {self}
  }

  function FirstIn<P, Q>(script: Script<P, Q>, done: seq<Tag>): map<nat, P> {
    map id | id in script.first && First(id) in done :: script.first[id]
  }

  function SecondIn<P, Q>(script: Script<P, Q>, done: seq<Tag>): map<nat, Q> {
    map id | id in script.second && Second(id) in done :: script.second[id]
  }

  /** The direct messages among rx, in order. */
  function Directs(rx: seq<ProtocolMessage>): seq<ProtocolMessage> {
    if rx == [] then []
    else Directs(rx[..|rx| - 1]) + if rx[|rx| - 1].to.Some? then [rx[|rx| - 1]] else []
  }

  function SecondTags(tags: seq<Tag>): seq<Tag> {
    if tags == [] then []
    else SecondTags(tags[..|tags| - 1]) + if tags[|tags| - 1].Second? then [tags[|tags| - 1]] else []
  }

  function AfterFirst<P, Q>(script: Script<P, Q>, self: nat, own: P, done: seq<Tag>,
                            read: seq<ProtocolMessage>): Gather<P>
  {
    Gather(FirstIn(script, done)[self := own], FirstIn(script, done), Directs(read))
  }

  ghost predicate AllFirst(max: nat, self: nat, done: seq<Tag>) {
    forall id: nat :: id in UpTo(max) && id != self ==> First(id) in done
  }

  lemma PushTag<P, Q>(script: Script<P, Q>, done: seq<Tag>, t: Tag)
    ensures t.First? && t.id in script.first ==>
        FirstIn(script, done + [t]) == FirstIn(script, done)[t.id := script.first[t.id]]
    ensures t.Second? ==> FirstIn(script, done + [t]) == FirstIn(script, done)
    ensures t.Second? && t.id in script.second ==>
              SecondIn(script, done + [t]) == SecondIn(script, done)[t.id := script.second[t.id]]
  {
  }

  lemma OfferFirst<P, Q>(codec: Codec<P, Q>, max: nat, self: nat, own: P, script: Script<P, Q>,
                         done: seq<Tag>, read: seq<ProtocolMessage>, m: ProtocolMessage, t: Tag)
    requires Complete(max, self, script) && Carries(codec, self, script, m, t) && t.id != self
    ensures Offer1(codec, max, self, AfterFirst(script, self, own, done, read), m)
            == Ok(AfterFirst(script, self, own, done + [t], read + [m]))
  {
    hide Decode, UpTo;
    PushTag(script, done, t);
    assert (read + [m])[..|read|] == read && (read + [m])[|read|] == m;
    if t.First? {
      assert Directs(read + [m]) == Directs(read);
      var p := script.first[t.id];
      assert FirstIn(script, done)[t.id := p][self := own] == FirstIn(script, done)[self := own][t.id := p];
    }
  }

  /** The first loop goes on exactly until every broadcast is in. */
  lemma StopsFirst<P, Q>(max: nat, self: nat, own: P, script: Script<P, Q>, done: seq<Tag>)
    requires Complete(max, self, script) && self in UpTo(max)
    ensures |FirstIn(script, done)[self := own]| >= max <==> AllFirst(max, self, done)
    ensures AllFirst(max, self, done) ==> FirstIn(script, done) == script.first
  {
    var all := FirstIn(script, done)[self := own];
    assert all.Keys <= UpTo(max);
    SubsetCount(all.Keys, UpTo(max));
    UpToCount(max);
    if AllFirst(max, self, done) {
      assert all.Keys == UpTo(max);
    } else {
      var id: nat :| id in UpTo(max) && id != self && First(id) !in done;
      assert id !in all;
    }
  }

  lemma Split(tags: seq<Tag>, rx: seq<ProtocolMessage>, k: nat)
    requires k < |tags| == |rx| && Unrepeated(tags)
    ensures tags[..k + 1] == tags[..k] + [tags[k]] && tags[k] !in tags[..k] && tags[k] in tags
    ensures rx[..k + 1] == rx[..k] + [rx[k]] && rx[k..] != [] && rx[k..][0] == rx[k] && rx[k..][1..] == rx[k + 1..]
  {
  }

  lemma FirstInTheEnd(max: nat, self: nat, tags: seq<Tag>)
    requires Arrangement(max, self, tags)
    ensures AllFirst(max, self, tags[..|tags|])
  {
    assert tags[..|tags|] == tags;
  }

  /** The first loop stops at the message that brings the last broadcast. */
  lemma {:induction false} Loop1<P, Q>(codec: Codec<P, Q>, max: nat, self: nat, own: P, script: Script<P, Q>,
                                       rx: seq<ProtocolMessage>, tags: seq<Tag>, k: nat) returns (stop: nat)
    requires self in UpTo(max) && Complete(max, self, script)
    requires Arrangement(max, self, tags) && Tagged(codec, self, script, rx, tags) && k <= |tags|
    ensures k <= stop <= |tags| && AllFirst(max, self, tags[..stop])
    ensures Collect1(codec, max, self, AfterFirst(script, self, own, tags[..k], rx[..k]), rx[k..])
            == Ok((AfterFirst(script, self, own, tags[..stop], rx[..stop]), rx[stop..]))
    decreases |tags| - k
  {
    hide Complete, Offer1, AllFirst, Carries, FirstIn;
    StopsFirst(max, self, own, script, tags[..k]);
    if AllFirst(max, self, tags[..k]) {
      stop := k;
    } else {
      FirstInTheEnd(max, self, tags);
      Split(tags, rx, k);
      assert Carries(codec, self, script, rx[k], tags[k]);
      OfferFirst(codec, max, self, own, script, tags[..k], rx[..k], rx[k], tags[k]);
      stop := Loop1(codec, max, self, own, script, rx, tags, k + 1);
    }
  }

  lemma OthersCount<V>(max: nat, self: nat, m: map<nat, V>)
    requires self in UpTo(max) && m.Keys == UpTo(max) - {self}
    ensures |m| == max - 1
  {
    UpToCount(max);
    assert |m| == |m.Keys|;
  }

  lemma EveryoneCount<V>(max: nat, self: nat, m: map<nat, V>, v: V)
    requires self in UpTo(max) && m.Keys == UpTo(max) - {self}
    ensures |m[self := v]| == max
  {
    UpToCount(max);
    assert m[self := v].Keys == UpTo(max);
    assert |m[self := v]| == |m[self := v].Keys|;
  }

  // ---- Round two, on a queue of direct packages only ----

  /** A queue of one direct package from every other party. */
  ghost predicate DirectQueue<P, Q>(codec: Codec<P, Q>, max: nat, self: nat, script: Script<P, Q>,
                                    queue: seq<ProtocolMessage>, tags: seq<Tag>)
  {
    Tagged(codec, self, script, queue, tags) && SecondOnly(max, self, tags)
  }

  lemma OfferSecond<P, Q>(codec: Codec<P, Q>, self: nat, script: Script<P, Q>, done: seq<Tag>, m: ProtocolMessage,
                          t: Tag)
    requires Carries(codec, self, script, m, t) && t.Second? && t !in done && t.id != 0
    ensures Offer2(codec, self, SecondIn(script, done), m) == Ok(SecondIn(script, done + [t]))
  {
    hide Decode;
    PushTag(script, done, t);
  }

  /** All the direct packages, and nothing else, in some order. */
  ghost predicate SecondOnly(max: nat, self: nat, tags: seq<Tag>) {
    Unrepeated(tags) && forall t :: t in tags <==> t.Second? && t.id in UpTo(max) && t.id != self
  }

  /** The second loop is short of a package while a tag is outstanding. */
  lemma ShortOfOne<P, Q>(max: nat, self: nat, script: Script<P, Q>, tags: seq<Tag>, k: nat)
    requires Complete(max, self, script) && self in UpTo(max) && k < |tags| && SecondOnly(max, self, tags)
    ensures |SecondIn(script, tags[..k])| < max - 1
  {
    var got, ids := SecondIn(script, tags[..k]), UpTo(max) - {self};
    var t := tags[k];
    assert t in tags && t !in tags[..k] && t == Second(t.id);
    assert t.id in ids && t.id !in got;
    SubsetCount(got.Keys, ids);
    UpToCount(max);
    assert |got| == |got.Keys|;
  }

  lemma HasAll<P, Q>(max: nat, self: nat, script: Script<P, Q>, tags: seq<Tag>)
    requires Complete(max, self, script) && self in UpTo(max) && SecondOnly(max, self, tags)
    ensures SecondIn(script, tags[..|tags|]) == script.second && |script.second| == max - 1
  {
    OthersCount(max, self, script.second);
    assert tags[..|tags|] == tags;
    forall id | id in script.second ensures Second(id) in tags {
    }
    AllSecond(script, tags);
  }

  lemma AllSecond<P, Q>(script: Script<P, Q>, tags: seq<Tag>)
    requires forall id :: id in script.second ==> Second(id) in tags
    ensures SecondIn(script, tags) == script.second
  {
  }

  lemma {:induction false} Loop2<P, Q>(codec: Codec<P, Q>, max: nat, self: nat, script: Script<P, Q>,
                                       queue: seq<ProtocolMessage>, tags: seq<Tag>, k: nat)
    requires self in UpTo(max) && Complete(max, self, script)
    requires DirectQueue(codec, max, self, script, queue, tags) && k <= |tags|
    ensures Collect2(codec, max, self, SecondIn(script, tags[..k]), queue[k..]) == Ok((script.second, []))
    decreases |tags| - k
  {
    hide Complete, Offer2, Carries, SecondIn;
    if k == |tags| {
      HasAll(max, self, script, tags);
      assert queue[k..] == [];
    } else {
      ShortOfOne(max, self, script, tags, k);
      Split(tags, queue, k);
      assert Carries(codec, self, script, queue[k], tags[k]);
      OfferSecond(codec, self, script, tags[..k], queue[k], tags[k]);
      Loop2(codec, max, self, script, queue, tags, k + 1);
    }
  }

  // ---- Nothing set aside is lost or read twice ----

  lemma TaggedPush<P, Q>(codec: Codec<P, Q>, self: nat, script: Script<P, Q>, rx: seq<ProtocolMessage>,
                         tags: seq<Tag>, m: ProtocolMessage, t: Tag)
    requires Tagged(codec, self, script, rx, tags) && Carries(codec, self, script, m, t)
    ensures Tagged(codec, self, script, rx + [m], tags + [t])
  {
    hide Carries;
  }

  lemma TaggedPop<P, Q>(codec: Codec<P, Q>, self: nat, script: Script<P, Q>, rx: seq<ProtocolMessage>, tags: seq<Tag>)
    requires Tagged(codec, self, script, rx, tags) && rx != []
    ensures Tagged(codec, self, script, rx[..|rx| - 1], tags[..|rx| - 1])
    ensures Carries(codec, self, script, rx[|rx| - 1], tags[|rx| - 1])
  {
    hide Carries;
  }

  lemma {:induction false} DirectsTagged<P, Q>(codec: Codec<P, Q>, self: nat, script: Script<P, Q>,
                                               rx: seq<ProtocolMessage>, tags: seq<Tag>)
    requires Tagged(codec, self, script, rx, tags)
    ensures Tagged(codec, self, script, Directs(rx), SecondTags(tags))
  {
    if rx != [] {
      var k := |rx| - 1;
      TaggedPop(codec, self, script, rx, tags);
      DirectsTagged(codec, self, script, rx[..k], tags[..k]);
      if tags[k].Second? {
        TaggedPush(codec, self, script, Directs(rx[..k]), SecondTags(tags[..k]), rx[k], tags[k]);
      } else {
        assert Directs(rx) == Directs(rx[..k]) && SecondTags(tags) == SecondTags(tags[..k]);
      }
    }
  }

  lemma {:induction false} SecondTagsAre(tags: seq<Tag>)
    ensures forall t :: t in SecondTags(tags) <==> t in tags && t.Second?
    ensures Unrepeated(tags) ==> Unrepeated(SecondTags(tags))
  {
    if tags != [] {
      var init, last := tags[..|tags| - 1], tags[|tags| - 1];
      SecondTagsAre(init);
      assert tags == init + [last];
      assert Unrepeated(tags) ==> last !in init;
      assert forall i :: 0 <= i < |SecondTags(init)| ==> SecondTags(init)[i] in SecondTags(init);
    }
  }

  /** What was set aside, followed by what was not read, is all the direct messages in order. */
  lemma {:induction false} DeferredThenRest(rx: seq<ProtocolMessage>, stop: nat)
    requires stop <= |rx| && forall i :: stop <= i < |rx| ==> rx[i].to.Some?
    ensures Directs(rx[..stop]) + rx[stop..] == Directs(rx)
  {
    if stop == |rx| {
      assert rx[..stop] == rx && rx[stop..] == [];
    } else {
      var k := |rx| - 1;
      var init := rx[..k];
      DeferredThenRest(init, stop);
      assert init[..stop] == rx[..stop] && rx[stop..] == init[stop..] + [rx[k]];
      Regroup(Directs(rx[..stop]), init[stop..], [rx[k]]);
    }
  }

  /** After the last broadcast only direct packages can be left. */
  lemma RestIsDirect<P, Q>(codec: Codec<P, Q>, max: nat, self: nat, script: Script<P, Q>, rx: seq<ProtocolMessage>,
                           tags: seq<Tag>, stop: nat)
    requires Arrangement(max, self, tags) && Tagged(codec, self, script, rx, tags) && stop <= |tags|
    requires AllFirst(max, self, tags[..stop])
    ensures forall i :: stop <= i < |rx| ==> rx[i].to.Some?
  {
    forall i | stop <= i < |rx| ensures rx[i].to.Some? {
      assert tags[i] in tags && tags[i] !in tags[..stop];
      assert First(tags[i].id) in tags[..stop];
      assert Carries(codec, self, script, rx[i], tags[i]);
    }
  }

  lemma QueueIsDirect<P, Q>(codec: Codec<P, Q>, max: nat, self: nat, script: Script<P, Q>, rx: seq<ProtocolMessage>,
                            tags: seq<Tag>)
    requires Arrangement(max, self, tags) && Tagged(codec, self, script, rx, tags)
    ensures DirectQueue(codec, max, self, script, Directs(rx), SecondTags(tags))
  {
    DirectsTagged(codec, self, script, rx, tags);
    SecondTagsAre(tags);
  }

  lemma Assemble<P, Q>(codec: Codec<P, Q>, self: nat, threshold: nat, max: nat, own: P, part2: map<nat, P> -> bool,
                       rx: seq<ProtocolMessage>, st: Gather<P>, rest: seq<ProtocolMessage>, second: map<nat, Q>)
    requires self != 0 && 2 <= threshold <= max
    requires Collect1(codec, max, self, Gather(map[self := own], map[], []), rx) == Ok((st, rest))
    requires |st.all| == max && |st.others| == max - 1 && part2(st.others)
    requires Collect2(codec, max, self, map[], st.deferred + rest) == Ok((second, []))
    ensures RunDkg(codec, self, threshold, max, own, part2, rx) == Ok(Packages(st.others, second, []))
  {
  }

  /**
    Key generation is order independent: whatever the interleaving, the later parts are called
    with exactly the broadcasts and exactly the direct packages of the other parties.
  */
  lemma DkgOrderIndependent<P, Q>(codec: Codec<P, Q>, self: nat, threshold: nat, max: nat, own: P,
                                  part2: map<nat, P> -> bool,
                                  script: Script<P, Q>, rx: seq<ProtocolMessage>, tags: seq<Tag>)
    requires self in UpTo(max) && 2 <= threshold <= max && Complete(max, self, script)
    requires Arrangement(max, self, tags) && Tagged(codec, self, script, rx, tags) && part2(script.first)
    ensures RunDkg(codec, self, threshold, max, own, part2, rx) == Ok(Packages(script.first, script.second, []))
    ensures script.first.Keys == script.second.Keys == UpTo(max) - {self}
  {
    hide Arrangement, Carries, AllFirst, RunDkg, Collect1, Collect2, DirectQueue, UpTo;
    assert tags[..0] == [] && rx[..0] == [] && rx[0..] == rx;
    assert FirstIn(script, []) == map[] && Directs([]) == [];
    var stop := Loop1(codec, max, self, own, script, rx, tags, 0);
    StopsFirst(max, self, own, script, tags[..stop]);
    RestIsDirect(codec, max, self, script, rx, tags, stop);
    DeferredThenRest(rx, stop);
    QueueIsDirect(codec, max, self, script, rx, tags);
    assert SecondTags(tags)[..0] == [] && Directs(rx)[0..] == Directs(rx) && SecondIn(script, []) == map[];
    Loop2(codec, max, self, script, Directs(rx), SecondTags(tags), 0);
    OthersCount(max, self, script.first);
    EveryoneCount(max, self, script.first, own);
    Assemble(codec, self, threshold, max, own, part2, rx,
      AfterFirst(script, self, own, tags[..stop], rx[..stop]), rx[stop..], script.second);
  }
}
