/** Slots of Redis Cluster keys. The standard is the Redis Cluster Specification, sections "Key distribution model"
    and "Hash tags". Strings are byte strings. */
module Cluster {
  import opened Crc16

  const SLOTS := 16384
  const OPEN: bv8 := 0x7b
  const CLOSE: bv8 := 0x7d

  // ---------------------------------------------------------------- the rule

  /** The first c at index i or later, or the length. */
  function Find(s: bytes, c: bv8, i: nat): (k: nat)
    requires i <= |s|
    ensures i <= k <= |s|
    ensures forall j :: i <= j < k ==> s[j] != c
    ensures k < |s| ==> s[k] == c
    decreases |s| - i
  {
    if i == |s| || s[i] == c then i else Find(s, c, i + 1)
  }

  /** Something stands between the first { and the first } after it. */
  predicate Tagged(key: bytes)
  {
    var start := Find(key, OPEN, 0);
    start < |key| && start + 1 < Find(key, CLOSE, start + 1) < |key|
  }

  function Tag(key: bytes): bytes
    requires Tagged(key)
  {
    var start := Find(key, OPEN, 0);
    key[start + 1..Find(key, CLOSE, start + 1)]
  }

  function HashPart(key: bytes): bytes
  {
    if Tagged(key) then Tag(key) else key
  }

  function SlotOfCrc(crc: bv16): int
  {
    (crc as int) % SLOTS
  }

  function Slot(key: bytes): int
  {
    SlotOfCrc(Remainder(HashPart(key)))
  }

  function LowBits(x: bv16): bv16
  {
    x & 0x3FFF
  }

  function Value(x: bv16): int
  {
    x as int
  }

  lemma SplitBits(crc: bv16)
    ensures crc as int == ((crc >> 14) as int) * SLOTS + (crc & 0x3FFF) as int
  {
  }

  lemma LowBitsRange(crc: bv16)
    ensures 0 <= (crc & 0x3FFF) as int < SLOTS
  {
  }

  lemma RemainderOf(a: int, b: int)
    requires 0 <= b < SLOTS
    ensures (a * SLOTS + b) % SLOTS == b
  {
  }

  /** The slot is the low 14 bits of the checksum. */
  lemma SlotIsLowBits(crc: bv16)
    ensures SlotOfCrc(crc) == Value(LowBits(crc))
  {
    SplitBits(crc);
    LowBitsRange(crc);
    RemainderOf((crc >> 14) as int, (crc & 0x3FFF) as int);
  }

  lemma WordFromInt(x: bv16)
    ensures 0 <= x as int < 65536 && (x as int) as bv16 == x
  {
  }

  lemma ValueInjective(x: bv16, y: bv16)
    requires Value(x) == Value(y)
    ensures x == y
  {
    WordFromInt(x);
    WordFromInt(y);
  }

  lemma SameSlotOfCrc(x: bv16, y: bv16)
    ensures SlotOfCrc(x) == SlotOfCrc(y) <==> LowBits(x) == LowBits(y)
  {
    hide SlotOfCrc, LowBits, Value;
    SlotIsLowBits(x);
    SlotIsLowBits(y);
    if SlotOfCrc(x) == SlotOfCrc(y) {
      ValueInjective(LowBits(x), LowBits(y));
    }
  }

  lemma FindUnique(s: bytes, c: bv8, i: nat, k: nat)
    requires i <= k < |s| && s[k] == c
    requires forall j :: i <= j < k ==> s[j] != c
    ensures Find(s, c, i) == k
  {
    assert Find(s, c, i) <= k;
  }

  lemma FindNone(s: bytes, c: bv8, i: nat)
    requires i <= |s| && forall j :: i <= j < |s| ==> s[j] != c
    ensures Find(s, c, i) == |s|
  {
  }

  /** A search that succeeds in a prefix ends there; one that fails goes on behind it. */
  lemma FindInPrefix(p: bytes, s: bytes, c: bv8, i: nat)
    requires i <= |p|
    ensures Find(p + s, c, i) == if Find(p, c, i) < |p| then Find(p, c, i) else |p| + Find(s, c, 0)
  {
    var k := Find(p, c, i);
    if k < |p| {
      assert forall j :: i <= j < k ==> (p + s)[j] == p[j];
      FindUnique(p + s, c, i, k);
    } else {
      var m := Find(s, c, 0);
      assert forall j :: i <= j < |p| + m ==> (p + s)[j] == if j < |p| then p[j] else s[j - |p|];
      if m < |s| {
        FindUnique(p + s, c, i, |p| + m);
      } else {
        FindNone(p + s, c, i);
      }
    }
  }

  /** The hash-tag rule: exactly the keys of the form before{tag}after, with a tag that is not empty and has no }, and
      no { before it, are hashed by their tag. */
  lemma HashTagRule(before: bytes, tag: bytes, after: bytes)
    requires OPEN !in before && CLOSE !in tag && tag != []
    ensures HashPart(before + [OPEN] + tag + [CLOSE] + after) == tag
  {
    var key := before + [OPEN] + tag + [CLOSE] + after;
    var n := |before|;
    FindUnique(key, OPEN, 0, n);
    assert forall j :: n + 1 <= j < n + 1 + |tag| ==> key[j] == tag[j - n - 1];
    FindUnique(key, CLOSE, n + 1, n + 1 + |tag|);
    assert key[n + 1..n + 1 + |tag|] == tag;
  }

  lemma HashTagOnly(key: bytes) returns (before: bytes, tag: bytes, after: bytes)
    requires HashPart(key) != key
    ensures key == before + [OPEN] + tag + [CLOSE] + after
    ensures OPEN !in before && CLOSE !in tag && tag != []
  {
    var start := Find(key, OPEN, 0);
    var end := Find(key, CLOSE, start + 1);
    before, tag, after := key[..start], key[start + 1..end], key[end + 1..];
    hide Find, Tagged;
    assert key[..end] == before + [OPEN] + tag;
    assert key == key[..end] + [CLOSE] + after;
  }

  /** GetClusterSlot */
  method GetClusterSlot(key: bytes) returns (slot: int)
    ensures slot == Slot(key)
  {
    hide Remainder, Slot, SlotOfCrc;
    var hashKey := key;
    var start, end := -1, -1;
    var i := 0;
    while i < |key|
      invariant i <= |key|
      invariant start == -1 && Find(key, OPEN, 0) == Find(key, OPEN, i)
    {
      if key[i] == OPEN {
        start := i;
        break;
      }
      i := i + 1;
    }
    assert Find(key, OPEN, 0) == if start >= 0 then start else |key|;
    if start >= 0 {
      i := start + 1;
      while i < |key|
        invariant start + 1 <= i <= |key|
        invariant end == -1 && Find(key, CLOSE, start + 1) == Find(key, CLOSE, i)
      {
        if key[i] == CLOSE {
          end := i;
          break;
        }
        i := i + 1;
      }
    }
    if start >= 0 && end >= 0 && end > start + 1 {
      hashKey := key[start + 1..end];
    }
    assert hashKey == HashPart(key);
    var crc := CalculateCRC16(hashKey);
    slot := (crc as int) % SLOTS;
    SlotOf(key);
  }

  lemma SlotOf(key: bytes)
    ensures Slot(key) == (Remainder(HashPart(key)) as int) % SLOTS
  {
    hide Remainder, HashPart;
  }

  // ---------------------------------------------------------------- many keys

  ghost predicate SameSlot(keys: seq<bytes>)
  {
    forall i, j :: 0 <= i < |keys| && 0 <= j < |keys| ==> Slot(keys[i]) == Slot(keys[j])
  }

  /** How many leading keys have the slot of the first. */
  function Agreeing(keys: seq<bytes>): (n: nat)
    ensures n <= |keys|
    ensures forall i :: 0 <= i < n ==> Slot(keys[i]) == Slot(keys[0])
    ensures n < |keys| ==> Slot(keys[n]) != Slot(keys[0])
  {
    hide Slot;
    AgreeingFrom(keys, 0)
  }

  function AgreeingFrom(keys: seq<bytes>, i: nat): (n: nat)
    requires i <= |keys|
    ensures i <= n <= |keys|
    ensures forall j :: i <= j < n ==> Slot(keys[j]) == Slot(keys[0])
    ensures n < |keys| ==> Slot(keys[n]) != Slot(keys[0])
    decreases |keys| - i
  {
    if i == |keys| || Slot(keys[i]) != Slot(keys[0]) then i else AgreeingFrom(keys, i + 1)
  }

  /** ValidateHashTags: the slots after the first one that differs are left at zero. */
  method ValidateHashTags(keys: seq<bytes>) returns (ok: bool, firstSlot: int, slots: seq<int>)
    ensures ok <==> SameSlot(keys)
    ensures keys == [] ==> firstSlot == 0
    ensures keys != [] ==> firstSlot == Slot(keys[0])
    ensures |slots| == |keys|
    ensures forall i :: 0 <= i < |keys| ==> slots[i] == if i <= Agreeing(keys) then Slot(keys[i]) else 0
  {
    hide Slot;
    if |keys| == 0 {
      return true, 0, [];
    }
    slots := seq(|keys|, i => 0);
    firstSlot := GetClusterSlot(keys[0]);
    for i := 0 to |keys|
      invariant |slots| == |keys| && i <= Agreeing(keys)
      invariant forall j :: 0 <= j < |keys| ==> slots[j] == if j < i then Slot(keys[j]) else 0
    {
      var slot := GetClusterSlot(keys[i]);
      slots := slots[i := slot];
      if slot != firstSlot {
        assert Agreeing(keys) == i;
        return false, firstSlot, slots;
      }
    }
    ok := true;
  }

  datatype ClusterInfo = ClusterInfo(slot: int, keys: seq<bytes>, hashTag: bytes)

  /** The keys of one slot, in order. */
  function KeysOf(keys: seq<bytes>, slot: int): seq<bytes>
  {
    if keys == [] then []
    else
      var n := |keys| - 1;
      KeysOf(keys[..n], slot) + if Slot(keys[n]) == slot then [keys[n]] else []
  }

  function HashTag(key: bytes): bytes
  {
    if Tagged(key) then Tag(key) else []
  }

  ghost predicate Group(keys: seq<bytes>, info: ClusterInfo)
  {
    && info.keys == KeysOf(keys, info.slot)
    && info.keys != []
    && info.hashTag == HashTag(info.keys[0])
  }

  /** One group for each slot in use, in any order. */
  ghost predicate Groups(keys: seq<bytes>, infos: seq<ClusterInfo>)
  {
    && (forall i :: 0 <= i < |infos| ==> Group(keys, infos[i]))
    && (forall i, j :: 0 <= i < j < |infos| ==> infos[i].slot != infos[j].slot)
    && (forall slot :: KeysOf(keys, slot) != [] ==> InUse(infos, slot))
  }

  ghost predicate InUse(infos: seq<ClusterInfo>, slot: int)
  {
    exists i :: 0 <= i < |infos| && infos[i].slot == slot
  }

  /** The scan for a tag that AnalyzeClusterKeys repeats. */
  method FindHashTag(key: bytes) returns (hashTag: bytes)
    ensures hashTag == HashTag(key)
  {
    hashTag := [];
    var start, end := -1, -1;
    var i := 0;
    while i < |key|
      invariant i <= |key|
      invariant start == -1 && Find(key, OPEN, 0) == Find(key, OPEN, i)
    {
      if key[i] == OPEN {
        start := i;
        break;
      }
      i := i + 1;
    }
    if start >= 0 {
      i := start + 1;
      while i < |key|
        invariant start + 1 <= i <= |key|
        invariant end == -1 && Find(key, CLOSE, start + 1) == Find(key, CLOSE, i)
      {
        if key[i] == CLOSE {
          end := i;
          break;
        }
        i := i + 1;
      }
    }
    if start >= 0 && end >= 0 && end > start + 1 {
      hashTag := key[start + 1..end];
    }
  }

  /** The slots in use, each once, in whatever order a Go map is iterated. */
  ghost predicate MapOrder(keys: seq<bytes>, order: seq<int>)
  {
    && (forall i, j :: 0 <= i < j < |order| ==> order[i] != order[j])
    && (forall slot :: slot in order <==> KeysOf(keys, slot) != [])
  }

  lemma KeysOfNone()
    ensures forall slot :: KeysOf([], slot) == []
  {
  }

  lemma KeysOfNext(keys: seq<bytes>, i: nat)
    requires i < |keys|
    ensures forall s :: KeysOf(keys[..i + 1], s) == KeysOf(keys[..i], s) + if Slot(keys[i]) == s then [keys[i]] else []
  {
    hide Slot;
    assert keys[..i + 1][..i] == keys[..i];
  }

  /** AnalyzeClusterKeys */
  method AnalyzeClusterKeys(keys: seq<bytes>, order: seq<int>) returns (infos: seq<ClusterInfo>)
    requires MapOrder(keys, order)
    ensures Groups(keys, infos)
    ensures |infos| == |order| && forall i :: 0 <= i < |order| ==> infos[i].slot == order[i]
  {
    hide Slot, HashTag, KeysOf;
    KeysOfNone();
    var slotMap: map<int, seq<bytes>> := map[];
    for i := 0 to |keys|
      invariant forall slot :: slot in slotMap <==> KeysOf(keys[..i], slot) != []
      invariant forall slot :: slot in slotMap ==> slotMap[slot] == KeysOf(keys[..i], slot)
    {
      KeysOfNext(keys, i);
      var slot := GetClusterSlot(keys[i]);
      ghost var was := slotMap;
      slotMap := slotMap[slot := (if slot in slotMap then slotMap[slot] else []) + [keys[i]]];
      forall s: int
        ensures s in slotMap <==> KeysOf(keys[..i + 1], s) != []
        ensures s in slotMap ==> slotMap[s] == KeysOf(keys[..i + 1], s)
      {
        assert s in was <==> KeysOf(keys[..i], s) != [];
      }
    }
    assert keys[..|keys|] == keys;
    assert forall slot :: slot in slotMap <==> KeysOf(keys, slot) != [];
    infos := [];
    for i := 0 to |order|
      invariant |infos| == i
      invariant forall j :: 0 <= j < i ==> infos[j].slot == order[j] && Group(keys, infos[j])
    {
      assert order[i] in order;
      var keyList := slotMap[order[i]];
      var hashTag := FindHashTag(keyList[0]);
      infos := infos + [ClusterInfo(order[i], keyList, hashTag)];
    }
  }

  lemma {:induction false} KeysOfOneSlot(keys: seq<bytes>, slot: int)
    requires forall i :: 0 <= i < |keys| ==> Slot(keys[i]) == slot
    ensures KeysOf(keys, slot) == keys
    ensures forall other :: other != slot ==> KeysOf(keys, other) == []
  {
    hide Slot;
    if keys != [] {
      KeysOfOneSlot(keys[..|keys| - 1], slot);
    }
  }

  /** Keys that share a slot form one group, which holds all of them in order. */
  lemma OneGroup(keys: seq<bytes>, infos: seq<ClusterInfo>)
    requires keys != [] && SameSlot(keys) && Groups(keys, infos)
    ensures infos == [ClusterInfo(Slot(keys[0]), keys, HashTag(keys[0]))]
  {
    hide Slot, HashTag;
    var slot := Slot(keys[0]);
    KeysOfOneSlot(keys, slot);
    assert InUse(infos, slot);
    assert |infos| > 1 ==> infos[0].slot != infos[1].slot;
    forall i | 0 <= i < |infos|
      ensures infos[i].slot == slot
    {
      assert Group(keys, infos[i]);
    }
    assert Group(keys, infos[0]);
  }
}
