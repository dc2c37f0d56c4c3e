/** Merging JetStream replies: streams and consumers are lists looked up by name, and a
    merge is the union of two such lists that prefers the right one. */
module JszMerge {
  import opened Prelude

  datatype Storage = MemoryStorage | FileStorage | OtherStorage
  datatype StreamConfig = StreamConfig(replicas: int, maxBytes: int, storage: Storage)
  datatype StreamState = StreamState(
    msgs: int, bytes: int, firstSeq: int, lastSeq: int, subjects: int, consumers: int)
  datatype Cluster = Cluster(leader: string, raftGroup: string)

  datatype ConsumerInfo = ConsumerInfo(
    name: string, cluster: Option<Cluster>,
    deliveredConsumer: int, deliveredStream: int,
    ackFloorConsumer: int, ackFloorStream: int,
    ackPending: int, pending: int, redelivered: int, waiting: int)

  datatype RaftGroup = RaftGroup(name: string, group: string)

  datatype StreamDetail = StreamDetail(
    name: string, cluster: Option<Cluster>, raftGroup: string,
    config: StreamConfig, state: StreamState,
    consumers: seq<ConsumerInfo>, consumerRaftGroups: seq<RaftGroup>)

  // ----- Consumers -----

  /** The first consumer with the name. */
  function FindConsumer(cs: seq<ConsumerInfo>, name: string): (r: Option<ConsumerInfo>)
    ensures r.Some? ==> r.value in cs && r.value.name == name
    ensures r.None? <==> forall i :: 0 <= i < |cs| ==> cs[i].name != name
  {
    if cs == [] then None
    else if cs[0].name == name then Some(cs[0])
    else FindConsumer(cs[1..], name)
  }

  function MergeConsumers(from: seq<ConsumerInfo>, to: seq<ConsumerInfo>): seq<ConsumerInfo> {
    if from == [] then to
    else
      var merged := MergeConsumers(from[..|from| - 1], to);
      var last := from[|from| - 1];
      if FindConsumer(merged, last.name).Some? then merged else merged + [last]
  }

  ghost predicate DistinctConsumers(cs: seq<ConsumerInfo>) {
    forall i, j :: 0 <= i < j < |cs| ==> cs[i].name != cs[j].name
  }

  lemma {:induction false} FindConsumerSnoc(cs: seq<ConsumerInfo>, c: ConsumerInfo, name: string)
    ensures FindConsumer(cs + [c], name) ==
            if FindConsumer(cs, name).Some? then FindConsumer(cs, name)
            else if c.name == name then Some(c) else None
  {
    if cs == [] {
    } else {
      assert (cs + [c])[1..] == cs[1..] + [c];
      FindConsumerSnoc(cs[1..], c, name);
    }
  }

  /** A consumer of the merge is the right list's, or else the left list's. */
  lemma {:induction false} MergeConsumersFind(from: seq<ConsumerInfo>, to: seq<ConsumerInfo>, name: string)
    ensures FindConsumer(MergeConsumers(from, to), name) ==
            if FindConsumer(to, name).Some? then FindConsumer(to, name) else FindConsumer(from, name)
  {
    if from == [] {
    } else {
      var init, last := from[..|from| - 1], from[|from| - 1];
      MergeConsumersFind(init, to, name);
      assert from == init + [last];
      FindConsumerSnoc(init, last, name);
      FindConsumerSnoc(MergeConsumers(init, to), last, name);
    }
  }

  lemma {:induction false} MergeConsumersDistinct(from: seq<ConsumerInfo>, to: seq<ConsumerInfo>)
    requires DistinctConsumers(to)
    ensures DistinctConsumers(MergeConsumers(from, to))
  {
    if from == [] {
    } else {
      MergeConsumersDistinct(from[..|from| - 1], to);
    }
  }

  // ----- Streams -----

  function FindStream(ss: seq<StreamDetail>, name: string): (r: Option<StreamDetail>)
    ensures r.Some? ==> r.value in ss && r.value.name == name
    ensures r.None? <==> forall i :: 0 <= i < |ss| ==> ss[i].name != name
  {
    if ss == [] then None
    else if ss[0].name == name then Some(ss[0])
    else FindStream(ss[1..], name)
  }

  function MergeStream(from: StreamDetail, to: StreamDetail): StreamDetail {
    to.(consumers := MergeConsumers(from.consumers, to.consumers))
  }

  /** One round of the outer loop: the first stream of the name absorbs s, or s is appended. */
  function AddStream(to: seq<StreamDetail>, s: StreamDetail): seq<StreamDetail> {
    if to == [] then [s]
    else if to[0].name == s.name then [MergeStream(s, to[0])] + to[1..]
    else [to[0]] + AddStream(to[1..], s)
  }

  function MergeStreams(from: seq<StreamDetail>, to: seq<StreamDetail>): seq<StreamDetail> {
    if from == [] then to
    else AddStream(MergeStreams(from[..|from| - 1], to), from[|from| - 1])
  }

  ghost predicate DistinctStreams(ss: seq<StreamDetail>) {
    forall i, j :: 0 <= i < j < |ss| ==> ss[i].name != ss[j].name
  }

  /** What a server reports: no stream twice, no consumer of a stream twice. */
  ghost predicate WellFormed(ss: seq<StreamDetail>) {
    && DistinctStreams(ss)
    && forall i :: 0 <= i < |ss| ==> DistinctConsumers(ss[i].consumers)
  }

  function Combine(from: Option<StreamDetail>, to: Option<StreamDetail>): Option<StreamDetail> {
    if from.None? then to
    else if to.None? then from
    else Some(MergeStream(from.value, to.value))
  }

  lemma {:induction false} FindStreamSnoc(ss: seq<StreamDetail>, s: StreamDetail, name: string)
    ensures FindStream(ss + [s], name) ==
            if FindStream(ss, name).Some? then FindStream(ss, name)
            else if s.name == name then Some(s) else None
  {
    if ss == [] {
    } else {
      assert (ss + [s])[1..] == ss[1..] + [s];
      FindStreamSnoc(ss[1..], s, name);
    }
  }

  lemma {:induction false} AddStreamFind(to: seq<StreamDetail>, s: StreamDetail, name: string)
    ensures FindStream(AddStream(to, s), name) ==
            if name == s.name then Combine(Some(s), FindStream(to, name)) else FindStream(to, name)
  {
    if to == [] || to[0].name == s.name {
    } else {
      AddStreamFind(to[1..], s, name);
    }
  }

  lemma {:induction false} AddStreamWellFormed(to: seq<StreamDetail>, s: StreamDetail)
    requires WellFormed(to) && DistinctConsumers(s.consumers)
    ensures WellFormed(AddStream(to, s))
    ensures forall i :: 0 <= i < |AddStream(to, s)| ==>
              AddStream(to, s)[i].name == s.name || exists j :: 0 <= j < |to| && to[j].name == AddStream(to, s)[i].name
  {
    if to == [] {
    } else if to[0].name == s.name {
      MergeConsumersDistinct(s.consumers, to[0].consumers);
    } else {
      AddStreamWellFormed(to[1..], s);
    }
  }

  /** A stream of the merge is the combination of the two lists' streams of that name. */
  lemma {:induction false} MergeStreamsFind(from: seq<StreamDetail>, to: seq<StreamDetail>, name: string)
    requires DistinctStreams(from)
    ensures FindStream(MergeStreams(from, to), name) ==
            Combine(FindStream(from, name), FindStream(to, name))
  {
    if from == [] {
    } else {
      var init, last := from[..|from| - 1], from[|from| - 1];
      MergeStreamsFind(init, to, name);
      assert from == init + [last];
      FindStreamSnoc(init, last, name);
      AddStreamFind(MergeStreams(init, to), last, name);
    }
  }

  lemma {:induction false} MergeStreamsWellFormed(from: seq<StreamDetail>, to: seq<StreamDetail>)
    requires WellFormed(from) && WellFormed(to)
    ensures WellFormed(MergeStreams(from, to))
  {
    if from == [] {
    } else {
      MergeStreamsWellFormed(from[..|from| - 1], to);
      AddStreamWellFormed(MergeStreams(from[..|from| - 1], to), from[|from| - 1]);
    }
  }

  lemma {:induction false} AddStreamPlaces(to: seq<StreamDetail>, s: StreamDetail)
    ensures |to| <= |AddStream(to, s)| <= |to| + 1
    ensures forall i :: 0 <= i < |to| ==>
              && AddStream(to, s)[i].(consumers := []) == to[i].(consumers := [])
              && to[i].consumers <= AddStream(to, s)[i].consumers
  {
    if to == [] {
    } else if to[0].name == s.name {
      MergeConsumersAfter(s.consumers, to[0].consumers);
    } else {
      AddStreamPlaces(to[1..], s);
    }
  }

  lemma {:induction false} MergeConsumersAfter(from: seq<ConsumerInfo>, to: seq<ConsumerInfo>)
    ensures to <= MergeConsumers(from, to)
  {
    if from != [] {
      MergeConsumersAfter(from[..|from| - 1], to);
    }
  }

  /** The streams and consumers of the right list keep their places; what the left one has
      more comes after them. */
  lemma {:induction false} MergeStreamsPlaces(from: seq<StreamDetail>, to: seq<StreamDetail>)
    ensures |to| <= |MergeStreams(from, to)| <= |to| + |from|
    ensures forall i :: 0 <= i < |to| ==>
              && MergeStreams(from, to)[i].(consumers := []) == to[i].(consumers := [])
              && to[i].consumers <= MergeStreams(from, to)[i].consumers
  {
    if from != [] {
      MergeStreamsPlaces(from[..|from| - 1], to);
      AddStreamPlaces(MergeStreams(from[..|from| - 1], to), from[|from| - 1]);
    }
  }
}
