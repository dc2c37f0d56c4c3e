/** Folding the replies of many servers for one account. */
module JszFold {
  import opened Prelude
  import opened JszMerge

  /** The stream list of one account after merging the replies in order of arrival. */
  function Fold(replies: seq<seq<StreamDetail>>): seq<StreamDetail> {
    if replies == [] then []
    else MergeStreams(Fold(replies[..|replies| - 1]), replies[|replies| - 1])
  }

  ghost predicate AllWellFormed(replies: seq<seq<StreamDetail>>) {
    forall i :: 0 <= i < |replies| ==> WellFormed(replies[i])
  }

  // ----- Reference definitions: what each reply says, without any merging -----

  /** The stream as the last reply that lists it reports it. */
  function LastStream(replies: seq<seq<StreamDetail>>, name: string): Option<StreamDetail> {
    if replies == [] then None
    else
      var own := FindStream(replies[|replies| - 1], name);
      if own.Some? then own else LastStream(replies[..|replies| - 1], name)
  }

  /** The consumer as the last reply that lists it under the stream reports it. */
  function LastConsumer(replies: seq<seq<StreamDetail>>, name: string, consumer: string): Option<ConsumerInfo> {
    if replies == [] then None
    else
      var stream := FindStream(replies[|replies| - 1], name);
      var own := if stream.Some? then FindConsumer(stream.value.consumers, consumer) else None;
      if own.Some? then own else LastConsumer(replies[..|replies| - 1], name, consumer)
  }

  ghost predicate ListsStream(reply: seq<StreamDetail>, name: string) {
    exists i :: 0 <= i < |reply| && reply[i].name == name
  }

  ghost predicate ListsConsumer(reply: seq<StreamDetail>, name: string, consumer: string) {
    exists i, j :: 0 <= i < |reply| && reply[i].name == name
                   && 0 <= j < |reply[i].consumers| && reply[i].consumers[j].name == consumer
  }

  ghost predicate StreamListed(replies: seq<seq<StreamDetail>>, name: string) {
    exists i :: 0 <= i < |replies| && ListsStream(replies[i], name)
  }

  ghost predicate ConsumerListed(replies: seq<seq<StreamDetail>>, name: string, consumer: string) {
    exists i :: 0 <= i < |replies| && ListsConsumer(replies[i], name, consumer)
  }

  /** Everything a stream detail says except its consumers. */
  function Header(s: StreamDetail): StreamDetail {
    s.(consumers := [])
  }

  // ----- The fold is the union, and prefers the last reply -----

  lemma {:induction false} FoldWellFormed(replies: seq<seq<StreamDetail>>)
    requires AllWellFormed(replies)
    ensures WellFormed(Fold(replies))
  {
    if replies == [] {
    } else {
      FoldWellFormed(replies[..|replies| - 1]);
      MergeStreamsWellFormed(Fold(replies[..|replies| - 1]), replies[|replies| - 1]);
    }
  }

  /** A merged stream carries the fields of the last reply that lists it. */
  lemma {:induction false} FoldStream(replies: seq<seq<StreamDetail>>, name: string)
    requires AllWellFormed(replies)
    ensures var merged, last := FindStream(Fold(replies), name), LastStream(replies, name);
            && (merged.Some? <==> last.Some?)
            && (merged.Some? ==> Header(merged.value) == Header(last.value))
  {
    if replies == [] {
    } else {
      var init := replies[..|replies| - 1];
      FoldStream(init, name);
      FoldWellFormed(init);
      MergeStreamsFind(Fold(init), replies[|replies| - 1], name);
    }
  }

  /** A merged consumer is the one of the last reply that lists it. */
  lemma {:induction false} FoldConsumer(replies: seq<seq<StreamDetail>>, name: string, consumer: string)
    requires AllWellFormed(replies)
    ensures var merged := FindStream(Fold(replies), name);
            LastConsumer(replies, name, consumer) ==
            if merged.Some? then FindConsumer(merged.value.consumers, consumer) else None
  {
    if replies == [] {
    } else {
      var init, last := replies[..|replies| - 1], replies[|replies| - 1];
      FoldConsumer(init, name, consumer);
      FoldWellFormed(init);
      MergeStreamsFind(Fold(init), last, name);
      var earlier, own := FindStream(Fold(init), name), FindStream(last, name);
      if earlier.Some? && own.Some? {
        MergeConsumersFind(earlier.value.consumers, own.value.consumers, consumer);
      }
    }
  }

  lemma {:induction false} LastStreamListed(replies: seq<seq<StreamDetail>>, name: string)
    ensures LastStream(replies, name).Some? <==> StreamListed(replies, name)
  {
    if replies == [] {
    } else {
      var init, last := replies[..|replies| - 1], replies[|replies| - 1];
      LastStreamListed(init, name);
      assert FindStream(last, name).Some? <==> ListsStream(last, name);
      assert forall i :: 0 <= i < |init| ==> replies[i] == init[i];
    }
  }

  lemma {:induction false} LastConsumerListed(replies: seq<seq<StreamDetail>>, name: string, consumer: string)
    requires AllWellFormed(replies)
    ensures LastConsumer(replies, name, consumer).Some? <==> ConsumerListed(replies, name, consumer)
  {
    if replies == [] {
    } else {
      var init, last := replies[..|replies| - 1], replies[|replies| - 1];
      LastConsumerListed(init, name, consumer);
      FindListedConsumer(last, name, consumer);
      assert forall i :: 0 <= i < |init| ==> replies[i] == init[i];
    }
  }

  lemma FindListedConsumer(reply: seq<StreamDetail>, name: string, consumer: string)
    requires DistinctStreams(reply)
    ensures ListsConsumer(reply, name, consumer) <==>
            FindStream(reply, name).Some? && FindConsumer(FindStream(reply, name).value.consumers, consumer).Some?
  {
    var s := FindStream(reply, name);
    if s.Some? {
      var i :| 0 <= i < |reply| && reply[i] == s.value;
      assert forall j :: 0 <= j < |reply| && reply[j].name == name ==> j == i;
    }
  }

  function StreamNames(ss: seq<StreamDetail>): set<string> {
    set i | 0 <= i < |ss| :: ss[i].name
  }

  function ConsumerNames(cs: seq<ConsumerInfo>): set<string> {
    set i | 0 <= i < |cs| :: cs[i].name
  }

  /** The stream names of the fold are the union of the replies'. */
  lemma FoldStreamNames(replies: seq<seq<StreamDetail>>)
    requires AllWellFormed(replies)
    ensures forall name :: name in StreamNames(Fold(replies)) <==> StreamListed(replies, name)
  {
    forall name
      ensures name in StreamNames(Fold(replies)) <==> StreamListed(replies, name)
    {
      FoldStream(replies, name);
      LastStreamListed(replies, name);
    }
  }

  /** The consumer names of a merged stream are the union of the replies'. */
  lemma FoldConsumerNames(replies: seq<seq<StreamDetail>>, name: string)
    requires AllWellFormed(replies) && FindStream(Fold(replies), name).Some?
    ensures forall consumer ::
              consumer in ConsumerNames(FindStream(Fold(replies), name).value.consumers) <==>
              ConsumerListed(replies, name, consumer)
  {
    var merged := FindStream(Fold(replies), name).value;
    forall consumer
      ensures consumer in ConsumerNames(merged.consumers) <==> ConsumerListed(replies, name, consumer)
    {
      FoldConsumer(replies, name, consumer);
      LastConsumerListed(replies, name, consumer);
    }
  }

  // ----- Counts do not depend on the order of arrival -----

  lemma {:induction false} DistinctNamesCount(ss: seq<StreamDetail>)
    requires DistinctStreams(ss)
    ensures |StreamNames(ss)| == |ss|
  {
    if ss == [] {
    } else {
      var init, last := ss[..|ss| - 1], ss[|ss| - 1];
      DistinctNamesCount(init);
      assert StreamNames(ss) == StreamNames(init) + {last.name};
      assert last.name !in StreamNames(init);
    }
  }

  lemma {:induction false} DistinctConsumersCount(cs: seq<ConsumerInfo>)
    requires DistinctConsumers(cs)
    ensures |ConsumerNames(cs)| == |cs|
  {
    if cs == [] {
    } else {
      var init, last := cs[..|cs| - 1], cs[|cs| - 1];
      DistinctConsumersCount(init);
      assert ConsumerNames(cs) == ConsumerNames(init) + {last.name};
      assert last.name !in ConsumerNames(init);
    }
  }

  lemma SameMembers<T>(xs: seq<T>, ys: seq<T>, i: nat)
    requires multiset(xs) == multiset(ys) && i < |xs|
    ensures exists j :: 0 <= j < |ys| && ys[j] == xs[i]
  {
    assert xs[i] in multiset(ys);
  }

  lemma SameStreams(xs: seq<seq<StreamDetail>>, ys: seq<seq<StreamDetail>>, name: string)
    requires multiset(xs) == multiset(ys) && StreamListed(xs, name)
    ensures StreamListed(ys, name)
  {
    var i :| 0 <= i < |xs| && ListsStream(xs[i], name);
    SameMembers(xs, ys, i);
  }

  lemma SameConsumers(xs: seq<seq<StreamDetail>>, ys: seq<seq<StreamDetail>>, name: string, consumer: string)
    requires multiset(xs) == multiset(ys) && ConsumerListed(xs, name, consumer)
    ensures ConsumerListed(ys, name, consumer)
  {
    var i :| 0 <= i < |xs| && ListsConsumer(xs[i], name, consumer);
    SameMembers(xs, ys, i);
  }

  lemma SameWellFormed(xs: seq<seq<StreamDetail>>, ys: seq<seq<StreamDetail>>)
    requires multiset(xs) == multiset(ys) && AllWellFormed(xs)
    ensures AllWellFormed(ys)
  {
    forall j | 0 <= j < |ys|
      ensures WellFormed(ys[j])
    {
      SameMembers(ys, xs, j);
    }
  }

  /** Any order of the same replies yields the same number of streams. */
  lemma StreamCountOrderFree(xs: seq<seq<StreamDetail>>, ys: seq<seq<StreamDetail>>)
    requires multiset(xs) == multiset(ys) && AllWellFormed(xs)
    ensures |Fold(xs)| == |Fold(ys)|
  {
    SameWellFormed(xs, ys);
    FoldStreamNames(xs);
    FoldStreamNames(ys);
    forall name
      ensures name in StreamNames(Fold(xs)) <==> name in StreamNames(Fold(ys))
    {
      if StreamListed(xs, name) { SameStreams(xs, ys, name); }
      if StreamListed(ys, name) { SameStreams(ys, xs, name); }
    }
    assert StreamNames(Fold(xs)) == StreamNames(Fold(ys));
    FoldWellFormed(xs);
    FoldWellFormed(ys);
    DistinctNamesCount(Fold(xs));
    DistinctNamesCount(Fold(ys));
  }

  /** And the same number of consumers for each of them. */
  lemma ConsumerCountOrderFree(xs: seq<seq<StreamDetail>>, ys: seq<seq<StreamDetail>>, name: string)
    requires multiset(xs) == multiset(ys) && AllWellFormed(xs)
    requires FindStream(Fold(xs), name).Some?
    ensures FindStream(Fold(ys), name).Some?
    ensures |FindStream(Fold(xs), name).value.consumers| == |FindStream(Fold(ys), name).value.consumers|
  {
    SameWellFormed(xs, ys);
    FoldStream(xs, name);
    FoldStream(ys, name);
    LastStreamListed(xs, name);
    LastStreamListed(ys, name);
    SameStreams(xs, ys, name);
    SameConsumerNames(xs, ys, name);
    FoldWellFormed(xs);
    FoldWellFormed(ys);
    DistinctConsumersCount(FindStream(Fold(xs), name).value.consumers);
    DistinctConsumersCount(FindStream(Fold(ys), name).value.consumers);
  }

  lemma SameConsumerNames(xs: seq<seq<StreamDetail>>, ys: seq<seq<StreamDetail>>, name: string)
    requires multiset(xs) == multiset(ys) && AllWellFormed(xs) && AllWellFormed(ys)
    requires FindStream(Fold(xs), name).Some? && FindStream(Fold(ys), name).Some?
    ensures ConsumerNames(FindStream(Fold(xs), name).value.consumers) ==
            ConsumerNames(FindStream(Fold(ys), name).value.consumers)
  {
    FoldConsumerNames(xs, name);
    FoldConsumerNames(ys, name);
    forall consumer
      ensures ConsumerListed(xs, name, consumer) <==> ConsumerListed(ys, name, consumer)
    {
      if ConsumerListed(xs, name, consumer) { SameConsumers(xs, ys, name, consumer); }
      if ConsumerListed(ys, name, consumer) { SameConsumers(ys, xs, name, consumer); }
    }
  }
}
