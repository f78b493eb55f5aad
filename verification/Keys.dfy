/** The Redis keys of a queue, and when they share a cluster slot. */
module Keys {
  import opened Gf2
  import opened Crc16
  import opened Cluster

  const BULL: bytes := [0x62, 0x75, 0x6c, 0x6c, 0x3a]                                                 // bull:
  const WAIT: bytes := [0x77, 0x61, 0x69, 0x74]                                                       // wait
  const PRIORITIZED: bytes := [0x70, 0x72, 0x69, 0x6f, 0x72, 0x69, 0x74, 0x69, 0x7a, 0x65, 0x64]      // prioritized
  const DELAYED: bytes := [0x64, 0x65, 0x6c, 0x61, 0x79, 0x65, 0x64]                                  // delayed
  const ACTIVE: bytes := [0x61, 0x63, 0x74, 0x69, 0x76, 0x65]                                         // active
  const COMPLETED: bytes := [0x63, 0x6f, 0x6d, 0x70, 0x6c, 0x65, 0x74, 0x65, 0x64]                    // completed
  const FAILED: bytes := [0x66, 0x61, 0x69, 0x6c, 0x65, 0x64]                                         // failed
  const EVENTS: bytes := [0x65, 0x76, 0x65, 0x6e, 0x74, 0x73]                                         // events
  const META: bytes := [0x6d, 0x65, 0x74, 0x61]                                                       // meta
  const LOCK: bytes := [0x3a, 0x6c, 0x6f, 0x63, 0x6b]                                                 // :lock
  const LOGS: bytes := [0x3a, 0x6c, 0x6f, 0x67, 0x73]                                                 // :logs
  const COLON: bv8 := 0x3a

  datatype KeyBuilder = KeyBuilder(queueName: bytes, useHashTags: bool) {

    /** bull:{name}: in a cluster, bull:name: elsewhere. */
    function Prefix(): bytes
    {
      if useHashTags then BULL + [OPEN] + queueName + [CLOSE, COLON] else BULL + queueName + [COLON]
    }

    function Wait(): bytes { Prefix() + WAIT }

    function Prioritized(): bytes { Prefix() + PRIORITIZED }

    function Delayed(): bytes { Prefix() + DELAYED }

    function Active(): bytes { Prefix() + ACTIVE }

    function Completed(): bytes { Prefix() + COMPLETED }

    function Failed(): bytes { Prefix() + FAILED }

    function Events(): bytes { Prefix() + EVENTS }

    function Meta(): bytes { Prefix() + META }

    function Job(jobID: bytes): bytes { Prefix() + jobID }

    function Lock(jobID: bytes): bytes { Prefix() + (jobID + LOCK) }

    function Logs(jobID: bytes): bytes { Prefix() + (jobID + LOGS) }

    function QueueKeys(): seq<bytes>
    {
      [Wait(), Prioritized(), Delayed(), Active(), Completed(), Failed(), Events(), Meta()]
    }

    /** Every key of the queue and of the given jobs. */
    function AllKeys(jobIDs: seq<bytes>): seq<bytes>
    {
      if jobIDs == [] then QueueKeys()
      else
        var n := |jobIDs| - 1;
        AllKeys(jobIDs[..n]) + [Job(jobIDs[n]), Lock(jobIDs[n]), Logs(jobIDs[n])]
    }
  }

  // ---------------------------------------------------------------- different keys

  lemma Cancel(p: bytes, s: bytes, t: bytes)
    ensures p + s == p + t <==> s == t
  {
    if p + s == p + t {
      assert (p + s)[|p|..] == s && (p + t)[|p|..] == t;
    }
  }

  lemma CancelRight(s: bytes, t: bytes, u: bytes)
    ensures s + u == t + u <==> s == t
  {
    if s + u == t + u {
      assert (s + u)[..|s|] == s && (t + u)[..|t|] == t;
    }
  }

  /** The containers' names. */
  function Suffixes(): (names: seq<bytes>)
    ensures |names| == 8
  {
    [WAIT, PRIORITIZED, DELAYED, ACTIVE, COMPLETED, FAILED, EVENTS, META]
  }

  /** The keys of a queue's containers are pairwise different. */
  lemma QueueKeysDiffer(kb: KeyBuilder, i: nat, j: nat)
    requires i < j < 8
    ensures kb.QueueKeys()[i] != kb.QueueKeys()[j]
  {
    SuffixesDiffer();
    ContainerKey(kb, i);
    ContainerKey(kb, j);
    Cancel(kb.Prefix(), Suffixes()[i], Suffixes()[j]);
  }

  lemma SuffixesDiffer()
    ensures forall i, j :: 0 <= i < j < 8 ==> Suffixes()[i] != Suffixes()[j]
  {
    assert WAIT[0] != META[0] && ACTIVE[0] != FAILED[0] && FAILED[0] != EVENTS[0] && ACTIVE[0] != EVENTS[0];
  }

  /** Within a queue, keys of jobs meet only when the ids say so: a job hash is a lock or a logs key, or one of the
      containers, exactly when its id ends in :lock or :logs, or is the container's name. Locks and logs keys are never
      containers. */
  lemma JobKeysApart(kb: KeyBuilder, x: bytes, y: bytes)
    ensures kb.Job(x) == kb.Job(y) <==> x == y
    ensures kb.Lock(x) == kb.Lock(y) <==> x == y
    ensures kb.Logs(x) == kb.Logs(y) <==> x == y
    ensures kb.Lock(x) != kb.Logs(y)
    ensures kb.Job(x) == kb.Lock(y) <==> x == y + LOCK
    ensures kb.Job(x) == kb.Logs(y) <==> x == y + LOGS
    ensures forall i :: 0 <= i < 8 ==> (kb.Job(x) == kb.QueueKeys()[i] <==> x == Suffixes()[i])
    ensures forall i :: 0 <= i < 8 ==> kb.Lock(x) != kb.QueueKeys()[i] && kb.Logs(x) != kb.QueueKeys()[i]
  {
    hide KeyBuilder.Prefix;
    var p := kb.Prefix();
    Cancel(p, x, y);
    Cancel(p, x + LOCK, y + LOCK);
    CancelRight(x, y, LOCK);
    Cancel(p, x + LOGS, y + LOGS);
    CancelRight(x, y, LOGS);
    Cancel(p, x + LOCK, y + LOGS);
    LastBytes(x, y);
    Cancel(p, x, y + LOCK);
    Cancel(p, x, y + LOGS);
    forall i | 0 <= i < 8
      ensures kb.Job(x) == kb.QueueKeys()[i] <==> x == Suffixes()[i]
      ensures kb.Lock(x) != kb.QueueKeys()[i] && kb.Logs(x) != kb.QueueKeys()[i]
    {
      ContainerKey(kb, i);
      Cancel(p, x, Suffixes()[i]);
      Cancel(p, x + LOCK, Suffixes()[i]);
      Cancel(p, x + LOGS, Suffixes()[i]);
      NoColon(i);
      assert (x + LOCK)[|x|] == COLON && (x + LOGS)[|x|] == COLON;
    }
  }

  lemma ContainerKey(kb: KeyBuilder, i: nat)
    requires i < 8
    ensures kb.QueueKeys()[i] == kb.Prefix() + Suffixes()[i]
  {
    hide KeyBuilder.Prefix;
  }

  lemma NoColon(i: nat)
    requires i < 8
    ensures COLON !in Suffixes()[i]
  {
  }

  lemma LastBytes(x: bytes, y: bytes)
    ensures x + LOCK != y + LOGS
  {
    assert (x + LOCK)[|x + LOCK| - 1] == LOCK[4] && (y + LOGS)[|y + LOGS| - 1] == LOGS[4];
  }

  /** With hash tags, queues whose names hold no } have no key in common. */
  lemma QueuesApart(a: KeyBuilder, b: KeyBuilder, s: bytes, t: bytes)
    requires a.useHashTags && b.useHashTags && CLOSE !in a.queueName && CLOSE !in b.queueName
    requires a.Prefix() + s == b.Prefix() + t
    ensures a == b && s == t
  {
    NameEnds(a, s);
    NameEnds(b, t);
    var key := a.Prefix() + s;
    assert a.queueName == key[6..6 + |a.queueName|] && b.queueName == key[6..6 + |b.queueName|];
    Cancel(a.Prefix(), s, t);
  }

  lemma NameEnds(kb: KeyBuilder, s: bytes)
    requires kb.useHashTags && CLOSE !in kb.queueName
    ensures var key := kb.Prefix() + s;
      && |key| >= 6 + |kb.queueName|
      && Find(key, CLOSE, 6) == 6 + |kb.queueName|
      && key[6..6 + |kb.queueName|] == kb.queueName
  {
    var key := kb.Prefix() + s;
    PrefixBytes(kb);
    hide KeyBuilder.Prefix;
    assert forall j :: 0 <= j < |kb.Prefix()| ==> key[j] == kb.Prefix()[j];
    FindUnique(key, CLOSE, 6, 6 + |kb.queueName|);
  }

  // ---------------------------------------------------------------- one slot

  /** Whatever follows a tagged prefix, the tag alone is hashed. */
  lemma TaggedPrefix(p: bytes, s: bytes)
    requires Tagged(p)
    ensures Tagged(p + s) && Tag(p + s) == Tag(p)
  {
    var start := Find(p, OPEN, 0);
    var end := Find(p, CLOSE, start + 1);
    FindInPrefix(p, s, OPEN, 0);
    FindInPrefix(p, s, CLOSE, start + 1);
    assert (p + s)[start + 1..end] == p[start + 1..end];
  }

  /** A prefix without a tag leaves a key without braces behind it to be hashed whole. */
  lemma UntaggedPrefix(p: bytes, s: bytes)
    requires !Tagged(p) && OPEN !in s && CLOSE !in s
    ensures HashPart(p + s) == p + s
  {
    var start := Find(p, OPEN, 0);
    FindInPrefix(p, s, OPEN, 0);
    if start < |p| {
      FindInPrefix(p, s, CLOSE, start + 1);
    }
  }

  /** The keys of a cluster queue are tagged exactly when the name is not empty and does not start with }. */
  lemma TaggedName(kb: KeyBuilder)
    requires kb.useHashTags
    ensures Tagged(kb.Prefix()) <==> kb.queueName != [] && kb.queueName[0] != CLOSE
    ensures Tagged(kb.Prefix()) ==> Tag(kb.Prefix()) == kb.queueName[..Find(kb.queueName, CLOSE, 0)]
  {
    var p, name := kb.Prefix(), kb.queueName;
    var k := Find(name, CLOSE, 0);
    PrefixBytes(kb);
    hide KeyBuilder.Prefix;
    FindUnique(p, OPEN, 0, 5);
    FindUnique(p, CLOSE, 6, 6 + k);
    assert p[6..6 + k] == name[..k];
  }

  lemma PrefixBytes(kb: KeyBuilder)
    requires kb.useHashTags
    ensures |kb.Prefix()| == |kb.queueName| + 8
    ensures kb.Prefix()[5] == OPEN && forall j :: 0 <= j < 5 ==> kb.Prefix()[j] != OPEN
    ensures forall j :: 0 <= j < |kb.queueName| ==> kb.Prefix()[6 + j] == kb.queueName[j]
    ensures kb.Prefix()[6 + |kb.queueName|] == CLOSE
  {
    assert forall j :: 0 <= j < 5 ==> kb.Prefix()[j] == BULL[j];
  }

  ghost predicate StartsWith(p: bytes, key: bytes)
  {
    exists s :: key == p + s
  }

  lemma Starts(p: bytes, s: bytes)
    ensures StartsWith(p, p + s)
  {
  }

  lemma {:induction false} AllStart(kb: KeyBuilder, jobIDs: seq<bytes>)
    ensures |kb.AllKeys(jobIDs)| == 8 + 3 * |jobIDs|
    ensures kb.AllKeys(jobIDs)[..8] == kb.QueueKeys()
    ensures forall i :: 0 <= i < |kb.AllKeys(jobIDs)| ==> StartsWith(kb.Prefix(), kb.AllKeys(jobIDs)[i])
  {
    var p := kb.Prefix();
    hide KeyBuilder.Prefix, StartsWith;
    if jobIDs == [] {
      Starts(p, WAIT);
      Starts(p, PRIORITIZED);
      Starts(p, DELAYED);
      Starts(p, ACTIVE);
      Starts(p, COMPLETED);
      Starts(p, FAILED);
      Starts(p, EVENTS);
      Starts(p, META);
    } else {
      var n := |jobIDs| - 1;
      AllStart(kb, jobIDs[..n]);
      Starts(p, jobIDs[n]);
      Starts(p, jobIDs[n] + LOCK);
      Starts(p, jobIDs[n] + LOGS);
    }
  }

  /** All eleven keys, for any jobs, go to the slot of the tag. */
  lemma TaggedKeysShare(kb: KeyBuilder, jobIDs: seq<bytes>)
    requires Tagged(kb.Prefix())
    ensures forall i :: 0 <= i < |kb.AllKeys(jobIDs)| ==>
      HashPart(kb.AllKeys(jobIDs)[i]) == Tag(kb.Prefix())
    ensures SameSlot(kb.AllKeys(jobIDs))
  {
    hide Tagged, Tag, KeyBuilder.Prefix, KeyBuilder.AllKeys, Remainder;
    AllStart(kb, jobIDs);
    forall i | 0 <= i < |kb.AllKeys(jobIDs)|
      ensures HashPart(kb.AllKeys(jobIDs)[i]) == Tag(kb.Prefix())
    {
      var s :| kb.AllKeys(jobIDs)[i] == kb.Prefix() + s;
      TaggedPrefix(kb.Prefix(), s);
    }
  }

  // ---------------------------------------------------------------- different slots

  lemma SuffixSteps()
    ensures DivideByte(0, 0x1a) == 0xb37b
    ensures DivideByte(0xb37b, 0x04) == 0xac3c
    ensures DivideByte(0xac3c, 0x1d) == 0x8bfa
    ensures DivideByte(0x8bfa, 0x15) == 0x9877
  {
  }

  lemma SuffixXor()
    ensures (0x77 as bv8) ^ (0x6d as bv8) == 0x1a && (0x61 as bv8) ^ (0x65 as bv8) == 0x04
    ensures (0x69 as bv8) ^ (0x74 as bv8) == 0x1d && (0x74 as bv8) ^ (0x61 as bv8) == 0x15
  {
  }

  lemma SameByte(x: bv8)
    ensures x ^ x == 0
  {
  }

  /** Behind one prefix, wait and meta have checksums that always differ by the same word. */
  lemma WaitXorMeta(p: bytes)
    ensures Add(Remainder(p + WAIT), Remainder(p + META)) == 0x9877
  {
    hide Add, DivideByte;
    var n := |p|;
    var d := Xor(p + WAIT, p + META);
    forall i | 0 <= i < n
      ensures d[i] == 0
    {
      SameByte(p[i]);
    }
    SuffixXor();
    assert d[n] == 0x1a && d[n + 1] == 0x04 && d[n + 2] == 0x1d && d[n + 3] == 0x15;
    ZerosRemain(d, n);
    Unroll(d, n);
    Unroll(d, n + 1);
    Unroll(d, n + 2);
    Unroll(d, n + 3);
    assert d[..n + 4] == d;
    SuffixSteps();
    RemainderLinear(p + WAIT, p + META);
  }

  lemma LowBitsDiffer(x: bv16, y: bv16)
    requires x ^ y == 0x9877
    ensures x & 0x3FFF != y & 0x3FFF
  {
  }

  lemma WaitAndMetaDiffer(p: bytes)
    requires !Tagged(p)
    ensures Slot(p + WAIT) != Slot(p + META)
  {
    hide Remainder, Tagged, Tag, SlotOfCrc, HashPart;
    UntaggedPrefix(p, WAIT);
    UntaggedPrefix(p, META);
    WaitXorMeta(p);
    var x, y := Remainder(p + WAIT), Remainder(p + META);
    LowBitsDiffer(x, y);
    SameSlotOfCrc(x, y);
  }

  /** The keys of a queue share a slot exactly when what precedes wait, active and so on holds a tag already. */
  lemma KeysShareSlot(kb: KeyBuilder, jobIDs: seq<bytes>)
    ensures SameSlot(kb.AllKeys(jobIDs)) <==> Tagged(kb.Prefix())
  {
    hide Slot, Tagged, KeyBuilder.Prefix, KeyBuilder.AllKeys;
    if Tagged(kb.Prefix()) {
      TaggedKeysShare(kb, jobIDs);
    } else {
      AllStart(kb, jobIDs);
      var keys := kb.AllKeys(jobIDs);
      assert keys[0] == keys[..8][0] == kb.Wait() && keys[7] == keys[..8][7] == kb.Meta();
      WaitAndMetaDiffer(kb.Prefix());
    }
  }

  /** In a cluster: every name but the empty one and those that start with }, and then the slot is that of the name's
      part before its first }. */
  lemma ClusterKeysShareSlot(kb: KeyBuilder, jobIDs: seq<bytes>)
    requires kb.useHashTags
    ensures SameSlot(kb.AllKeys(jobIDs)) <==> kb.queueName != [] && kb.queueName[0] != CLOSE
    ensures SameSlot(kb.AllKeys(jobIDs)) ==>
      forall i :: 0 <= i < |kb.AllKeys(jobIDs)| ==>
        Slot(kb.AllKeys(jobIDs)[i]) == SlotOfCrc(Remainder(kb.queueName[..Find(kb.queueName, CLOSE, 0)]))
  {
    hide Tagged, Tag, SlotOfCrc, HashPart, Remainder, KeyBuilder.Prefix, KeyBuilder.AllKeys, SameSlot;
    KeysShareSlot(kb, jobIDs);
    TaggedName(kb);
    if Tagged(kb.Prefix()) {
      TaggedKeysShare(kb, jobIDs);
    }
  }

  /** What the analysis reports for the keys of a cluster queue: one group with every key in order. */
  lemma ClusterKeysAreOneGroup(kb: KeyBuilder, jobIDs: seq<bytes>, infos: seq<ClusterInfo>)
    requires kb.useHashTags && kb.queueName != [] && kb.queueName[0] != CLOSE
    requires Groups(kb.AllKeys(jobIDs), infos)
    ensures |infos| == 1 && infos[0].keys == kb.AllKeys(jobIDs)
    ensures infos[0].hashTag == kb.queueName[..Find(kb.queueName, CLOSE, 0)]
    ensures infos[0].slot == SlotOfCrc(Remainder(infos[0].hashTag))
  {
    hide Tagged, Tag, SlotOfCrc, HashPart, Slot, KeyBuilder.Prefix, KeyBuilder.AllKeys, SameSlot, Groups;
    var keys := kb.AllKeys(jobIDs);
    AllStart(kb, jobIDs);
    ClusterKeysShareSlot(kb, jobIDs);
    OneGroup(keys, infos);
    assert Slot(keys[0]) == Slot(kb.AllKeys(jobIDs)[0]);
    TaggedName(kb);
    TaggedPrefix(kb.Prefix(), WAIT);
    assert keys[0] == keys[..8][0] == kb.Wait();
  }
}
