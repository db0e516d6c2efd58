/** The learning switch: frame parsing, the bounded forwarding table and recipient choice,
    proved against the history of accepted frames. */
module SwitchCore {
  import opened Wrappers

  type Byte = x: int | 0 <= x < 256

  const FRAME_MINIMUM: nat := 14
  const FRAME_MAXIMUM: nat := 65_535
  const FDB_CAPACITY: nat := 4096

  type EndpointId = nat
  type Mac = seq<Byte>

  datatype FrameClass = Unicast | Broadcast | Multicast
  datatype ParsedFrame = ParsedFrame(source: Mac, destination: Mac, vlan: Option<nat>, class_: FrameClass)
  datatype FrameError = InvalidLength | InvalidVlan
  datatype ForwardingError = InvalidFrame(error: FrameError) | UnknownEndpoint

  // ----- parsing -----

  function BigEndian(hi: Byte, lo: Byte): nat { hi * 256 + lo }

  function Classify(destination: Mac): FrameClass
    requires |destination| == 6
  {
    if destination == [0xff, 0xff, 0xff, 0xff, 0xff, 0xff] then Broadcast
    else if destination[0] % 2 == 1 then Multicast
    else Unicast
  }

  /** The classes by their bytes. A broadcast is a group address too, so one bit of the first
      octet alone tells whether a frame is for one station. */
  lemma ClassesByBytes(destination: Mac)
    requires |destination| == 6
    ensures Classify(destination) == Broadcast <==> forall i :: 0 <= i < 6 ==> destination[i] == 0xff
    ensures Classify(destination) == Multicast <==>
            destination[0] % 2 == 1 && exists i :: 0 <= i < 6 && destination[i] != 0xff
    ensures Classify(destination) == Unicast <==> destination[0] % 2 == 0
  {
    var all: Mac := [0xff, 0xff, 0xff, 0xff, 0xff, 0xff];
    if forall i :: 0 <= i < 6 ==> destination[i] == 0xff {
      assert destination == all;
    } else {
      assert destination != all by {
        var i :| 0 <= i < 6 && destination[i] != 0xff;
        assert all[i] == 0xff;
      }
    }
  }

  /** The VLAN identifier is the low twelve bits of the tag control information. */
  function ParseFrame(frame: seq<Byte>): Result<ParsedFrame, FrameError> {
    if !(FRAME_MINIMUM <= |frame| <= FRAME_MAXIMUM) then Err(InvalidLength)
    else
      var etherType := BigEndian(frame[12], frame[13]);
      var tagged := etherType == 0x8100 || etherType == 0x88a8;
      if tagged && |frame| < 18 then Err(InvalidVlan)
      else
        var vlan := if tagged then Some(BigEndian(frame[14], frame[15]) % 4096) else None;
        Ok(ParsedFrame(frame[6..12], frame[0..6], vlan, Classify(frame[0..6])))
  }

  /** Exactly what is refused: a frame of the wrong length, and a tag with nothing after it. */
  lemma RefusesExactly(frame: seq<Byte>)
    ensures ParseFrame(frame) == Err(InvalidLength) <==> |frame| < 14 || |frame| > 65_535
    ensures ParseFrame(frame) == Err(InvalidVlan) <==>
            14 <= |frame| < 18 && (frame[12..14] == [0x81, 0x00] || frame[12..14] == [0x88, 0xa8])
  {
    if 14 <= |frame| < 18 {
      assert frame[12..14] == [frame[12], frame[13]];
      var hi, lo := frame[12], frame[13];
      assert BigEndian(hi, lo) == 0x8100 <==> hi == 0x81 && lo == 0;
      assert BigEndian(hi, lo) == 0x88a8 <==> hi == 0x88 && lo == 0xa8;
    }
  }

  /** A tag as sent on the wire: protocol identifier, priority and drop bits, VLAN. */
  datatype Tag = Customer(priority: nat, vlan: nat) | Service(priority: nat, vlan: nat)

  predicate LegalTag(tag: Tag) {
    tag.priority < 16 && tag.vlan < 4096
  }

  function TagBytes(tag: Tag): seq<Byte>
    requires LegalTag(tag)
  {
    var tci := tag.priority * 4096 + tag.vlan;
    (if tag.Customer? then [0x81, 0x00] else [0x88, 0xa8]) + [tci / 256, tci % 256]
  }

  /** An untagged frame and a tagged one, as a sender writes them. */
  function Untagged(destination: Mac, source: Mac, etherType: nat, payload: seq<Byte>): seq<Byte>
    requires etherType < 65536
  {
    destination + source + [etherType / 256, etherType % 256] + payload
  }

  function Tagged(destination: Mac, source: Mac, tag: Tag, rest: seq<Byte>): seq<Byte>
    requires LegalTag(tag)
  {
    destination + source + TagBytes(tag) + rest
  }

  /** Parsing recovers exactly the addresses and the VLAN that were written; the priority
      bits and which of the two tag protocols carried them make no difference. */
  lemma ParseTagged(destination: Mac, source: Mac, tag: Tag, rest: seq<Byte>)
    requires |destination| == 6 && |source| == 6 && LegalTag(tag)
    requires 2 <= |rest| <= FRAME_MAXIMUM - 16
    ensures ParseFrame(Tagged(destination, source, tag, rest)) ==
            Ok(ParsedFrame(source, destination, Some(tag.vlan), Classify(destination)))
  {
    var frame := Tagged(destination, source, tag, rest);
    var tci := tag.priority * 4096 + tag.vlan;
    assert frame[0..6] == destination && frame[6..12] == source;
    assert BigEndian(frame[14], frame[15]) == tci;
    assert tci % 4096 == tag.vlan;
  }

  lemma ParseUntagged(destination: Mac, source: Mac, etherType: nat, payload: seq<Byte>)
    requires |destination| == 6 && |source| == 6 && etherType < 65536
    requires etherType != 0x8100 && etherType != 0x88a8 && |payload| <= FRAME_MAXIMUM - 14
    ensures ParseFrame(Untagged(destination, source, etherType, payload)) ==
            Ok(ParsedFrame(source, destination, None, Classify(destination)))
  {
    var frame := Untagged(destination, source, etherType, payload);
    assert frame[0..6] == destination && frame[6..12] == source;
    assert BigEndian(frame[12], frame[13]) == etherType;
  }

  // ----- the forwarding table against history -----

  datatype Key = Key(mac: Mac, vlan: Option<nat>)

  /** A source address seen on an endpoint. */
  datatype Sighting = Sighting(key: Key, endpoint: EndpointId)

  /** All keys sighted. */
  function KeysOf(history: seq<Sighting>): set<Key> {
    set i | 0 <= i < |history| :: history[i].key
  }

  /** The endpoint of the last sighting of a key. */
  function Latest(history: seq<Sighting>, key: Key): EndpointId
    requires key in KeysOf(history)
  {
    var last := history[|history| - 1];
    if last.key == key then last.endpoint
    else
      assert key in KeysOf(history[..|history| - 1]) by {
        var i :| 0 <= i < |history| && history[i].key == key;
        assert history[..|history| - 1][i] == history[i];
      }
      Latest(history[..|history| - 1], key)
  }

  /** Among the first `capacity` distinct keys: at its first sighting fewer were known. */
  ghost predicate Early(history: seq<Sighting>, key: Key, capacity: nat) {
    exists i :: 0 <= i < |history| && history[i].key == key && |KeysOf(history[..i])| < capacity
  }

  /** The table holds exactly the early keys, each with its latest endpoint. */
  ghost predicate Reflects(entries: map<Key, EndpointId>, history: seq<Sighting>, capacity: nat) {
    && HoldsEarly(entries, history, capacity)
    && HoldsLatest(entries, history)
    && |entries| == (if |KeysOf(history)| < capacity then |KeysOf(history)| else capacity)
  }

  ghost predicate HoldsEarly(entries: map<Key, EndpointId>, history: seq<Sighting>, capacity: nat) {
    forall key :: key in entries <==> Early(history, key, capacity)
  }

  ghost predicate HoldsLatest(entries: map<Key, EndpointId>, history: seq<Sighting>) {
    forall key :: key in entries ==> key in KeysOf(history) && entries[key] == Latest(history, key)
  }

  function Learned(entries: map<Key, EndpointId>, capacity: nat, sighting: Sighting): map<Key, EndpointId> {
    if sighting.key in entries then entries[sighting.key := sighting.endpoint]
    else if |entries| < capacity then entries[sighting.key := sighting.endpoint]
    else entries
  }

  lemma KeysOfAppend(history: seq<Sighting>, sighting: Sighting)
    ensures KeysOf(history + [sighting]) == KeysOf(history) + {sighting.key}
  {
    var longer := history + [sighting];
    forall key | key in KeysOf(history) + {sighting.key} ensures key in KeysOf(longer) {
      if key == sighting.key {
        assert longer[|history|].key == key;
      } else {
        var i :| 0 <= i < |history| && history[i].key == key;
        assert longer[i].key == key;
      }
    }
  }

  lemma EarlyAppend(history: seq<Sighting>, sighting: Sighting, key: Key, capacity: nat)
    ensures Early(history + [sighting], key, capacity) <==>
            Early(history, key, capacity) || (key == sighting.key && |KeysOf(history)| < capacity)
  {
    var longer := history + [sighting];
    assert longer[..|history|] == history;
    if Early(longer, key, capacity) {
      var i :| 0 <= i < |longer| && longer[i].key == key && |KeysOf(longer[..i])| < capacity;
      if i < |history| {
        assert longer[..i] == history[..i];
        assert history[i].key == key;
      }
    }
    if Early(history, key, capacity) {
      var i :| 0 <= i < |history| && history[i].key == key && |KeysOf(history[..i])| < capacity;
      assert longer[..i] == history[..i];
      assert longer[i].key == key;
    } else if key == sighting.key && |KeysOf(history)| < capacity {
      assert longer[|history|].key == key;
    }
  }

  lemma LatestAppend(history: seq<Sighting>, sighting: Sighting, key: Key)
    requires key in KeysOf(history + [sighting])
    requires key != sighting.key ==> key in KeysOf(history)
    ensures Latest(history + [sighting], key) ==
            if key == sighting.key then sighting.endpoint else Latest(history, key)
  {
    assert (history + [sighting])[..|history|] == history;
  }

  /** An early key is a sighted key. */
  lemma EarlyIsSighted(history: seq<Sighting>, key: Key, capacity: nat)
    requires Early(history, key, capacity)
    ensures key in KeysOf(history)
  {}

  /** Below capacity every sighted key is early. */
  lemma {:induction false} AllEarlyBelowCapacity(history: seq<Sighting>, key: Key, capacity: nat)
    requires key in KeysOf(history) && |KeysOf(history)| <= capacity
    ensures Early(history, key, capacity)
  {
    var before, last := history[..|history| - 1], history[|history| - 1];
    assert before + [last] == history;
    KeysOfAppend(before, last);
    EarlyAppend(before, last, key, capacity);
    if key in KeysOf(before) {
      assert KeysOf(before) <= KeysOf(history);
      SubsetSize(KeysOf(before), KeysOf(history));
      AllEarlyBelowCapacity(before, key, capacity);
    }
  }

  lemma {:induction false} SubsetSize<T>(a: set<T>, b: set<T>)
    requires a <= b
    ensures |a| <= |b|
  {
    if a != {} {
      var x :| x in a;
      SubsetSize(a - {x}, b - {x});
    }
  }

  /** A sighted key missing from the table means the table is full. */
  lemma MissingMeansFull(entries: map<Key, EndpointId>, history: seq<Sighting>, key: Key, capacity: nat)
    requires Reflects(entries, history, capacity) && key !in entries
    ensures key in KeysOf(history) ==> |entries| == capacity
    ensures |KeysOf(history)| < capacity <==> |entries| < capacity
  {
    if key in KeysOf(history) && |KeysOf(history)| <= capacity {
      AllEarlyBelowCapacity(history, key, capacity);
    }
  }

  lemma LearnKeepsEarly(entries: map<Key, EndpointId>, history: seq<Sighting>, sighting: Sighting, capacity: nat)
    requires HoldsEarly(entries, history, capacity)
    requires sighting.key !in entries ==> (|KeysOf(history)| < capacity <==> |entries| < capacity)
    ensures HoldsEarly(Learned(entries, capacity, sighting), history + [sighting], capacity)
  {
    forall key ensures key in Learned(entries, capacity, sighting) <==> Early(history + [sighting], key, capacity) {
      EarlyAppend(history, sighting, key, capacity);
    }
  }

  lemma LearnKeepsLatest(entries: map<Key, EndpointId>, history: seq<Sighting>, sighting: Sighting, capacity: nat)
    requires HoldsLatest(entries, history)
    ensures HoldsLatest(Learned(entries, capacity, sighting), history + [sighting])
  {
    var entries', history' := Learned(entries, capacity, sighting), history + [sighting];
    KeysOfAppend(history, sighting);
    forall key | key in entries' ensures key in KeysOf(history') && entries'[key] == Latest(history', key) {
      LatestAppend(history, sighting, key);
    }
  }

  /** One more sighting keeps the table the reflection of history. */
  lemma LearnReflects(entries: map<Key, EndpointId>, history: seq<Sighting>, sighting: Sighting, capacity: nat)
    requires Reflects(entries, history, capacity)
    ensures Reflects(Learned(entries, capacity, sighting), history + [sighting], capacity)
  {
    if sighting.key !in entries { MissingMeansFull(entries, history, sighting.key, capacity); }
    LearnKeepsEarly(entries, history, sighting, capacity);
    LearnKeepsLatest(entries, history, sighting, capacity);
    KeysOfAppend(history, sighting);
    if sighting.key in KeysOf(history) {
      assert KeysOf(history) + {sighting.key} == KeysOf(history);
    } else {
      assert sighting.key !in entries;
    }
  }

  function Replay(history: seq<Sighting>, capacity: nat): map<Key, EndpointId> {
    if history == [] then map[]
    else Learned(Replay(history[..|history| - 1], capacity), capacity, history[|history| - 1])
  }

  /** After any history the table holds exactly the first `capacity` distinct keys, each
      mapped to the endpoint it was last seen on. */
  lemma {:induction false} TableEqualsHistory(history: seq<Sighting>, capacity: nat)
    ensures Reflects(Replay(history, capacity), history, capacity)
  {
    if history != [] {
      var before, last := history[..|history| - 1], history[|history| - 1];
      TableEqualsHistory(before, capacity);
      assert before + [last] == history;
      LearnReflects(Replay(before, capacity), before, last, capacity);
    }
  }

  class ForwardingDatabase {
    var entries: map<Key, EndpointId>
    const capacity: nat

    /** Every sighting learned, oldest first. */
    ghost var history: seq<Sighting>

    ghost predicate Valid()
      reads this
    {
      Reflects(entries, history, capacity)
    }

    constructor ()
      ensures Valid() && history == [] && capacity == FDB_CAPACITY
    {
      entries, capacity, history := map[], FDB_CAPACITY, [];
      new;
      TableEqualsHistory([], capacity);
    }

    method Learn(parsed: ParsedFrame, endpoint: EndpointId)
      requires Valid()
      modifies this
      ensures Valid() && history == old(history) + [Sighting(Key(parsed.source, parsed.vlan), endpoint)]
    {
      var key := Key(parsed.source, parsed.vlan);
      LearnReflects(entries, history, Sighting(key, endpoint), capacity);
      if key in entries {
        entries := entries[key := endpoint];
      } else if |entries| < capacity {
        entries := entries[key := endpoint];
      }
      history := history + [Sighting(key, endpoint)];
    }

    method Lookup(parsed: ParsedFrame) returns (r: Option<EndpointId>)
      requires Valid()
      ensures r == Known(history, capacity, Key(parsed.destination, parsed.vlan))
    {
      var key := Key(parsed.destination, parsed.vlan);
      if key in entries {
        return Some(entries[key]);
      }
      return None;
    }
  }

  /** What the history says about a key: its latest endpoint, if it came early enough. */
  ghost function Known(history: seq<Sighting>, capacity: nat, key: Key): Option<EndpointId> {
    if Early(history, key, capacity) then
      EarlyIsSighted(history, key, capacity);
      Some(Latest(history, key))
    else None
  }

  // ----- forwarding -----

  /** Every endpoint but the source, in order. */
  function Peers(endpoints: seq<EndpointId>, source: EndpointId): (peers: seq<EndpointId>)
    ensures forall e :: e in peers <==> e in endpoints && e != source
  {
    if endpoints == [] then []
    else (if endpoints[0] == source then [] else [endpoints[0]]) + Peers(endpoints[1..], source)
  }

  /** The recipients the history calls for: a unicast frame to a known address goes to that
      endpoint unless it is the source; anything else goes to all the others. */
  ghost function Recipients(endpoints: seq<EndpointId>, history: seq<Sighting>, capacity: nat, source: EndpointId,
                            parsed: ParsedFrame): seq<EndpointId> {
    var known := Known(history, capacity, Key(parsed.destination, parsed.vlan));
    if parsed.class_ == Unicast && known.Some? then
      if known.value == source then [] else [known.value]
    else Peers(endpoints, source)
  }

  ghost predicate FromMembers(history: seq<Sighting>, endpoints: seq<EndpointId>) {
    forall i :: 0 <= i < |history| ==> history[i].endpoint in endpoints
  }

  lemma {:induction false} LatestIsMember(history: seq<Sighting>, endpoints: seq<EndpointId>, key: Key)
    requires FromMembers(history, endpoints) && key in KeysOf(history)
    ensures Latest(history, key) in endpoints
  {
    var before, last := history[..|history| - 1], history[|history| - 1];
    if last.key != key {
      assert before + [last] == history;
      KeysOfAppend(before, last);
      LatestIsMember(before, endpoints, key);
    }
  }

  /** Recipients are members other than the source. */
  lemma RecipientsAreOtherMembers(endpoints: seq<EndpointId>, history: seq<Sighting>, capacity: nat, source: EndpointId,
                                  parsed: ParsedFrame, recipient: EndpointId)
    requires FromMembers(history, endpoints)
    requires recipient in Recipients(endpoints, history, capacity, source, parsed)
    ensures recipient in endpoints && recipient != source
  {
    var key := Key(parsed.destination, parsed.vlan);
    if parsed.class_ == Unicast && Early(history, key, capacity) {
      EarlyIsSighted(history, key, capacity);
      LatestIsMember(history, endpoints, key);
    }
  }

  // ----- what forwarding means, by bytes and sightings -----

  /** The key was last sighted on this endpoint. */
  ghost predicate LastSeenOn(history: seq<Sighting>, key: Key, endpoint: EndpointId) {
    exists i :: && 0 <= i < |history| && history[i] == Sighting(key, endpoint)
                && forall j :: i < j < |history| ==> history[j].key != key
  }

  /** Every endpoint but the source, each as often as it is listed, and nobody else. */
  ghost predicate Floods(endpoints: seq<EndpointId>, source: EndpointId, r: seq<EndpointId>) {
    forall e :: multiset(r)[e] == if e == source then 0 else multiset(endpoints)[e]
  }

  /** The destination is one station whose address the table can hold. */
  ghost predicate Located(history: seq<Sighting>, capacity: nat, key: Key)
    requires |key.mac| == 6
  {
    key.mac[0] % 2 == 0 && Early(history, key, capacity)
  }

  /** A located destination is served at the endpoint it was last seen on and nowhere else,
      not even there if that is the source; every other frame floods. */
  ghost predicate Routes(endpoints: seq<EndpointId>, history: seq<Sighting>, capacity: nat, source: EndpointId, key: Key,
                         r: seq<EndpointId>)
    requires |key.mac| == 6
  {
    if Located(history, capacity, key)
    then exists e: EndpointId :: LastSeenOn(history, key, e) && r == if e == source then [] else [e]
    else Floods(endpoints, source, r)
  }

  lemma {:induction false} LatestIsLastSeen(history: seq<Sighting>, key: Key)
    requires key in KeysOf(history)
    ensures LastSeenOn(history, key, Latest(history, key))
  {
    var before, last := history[..|history| - 1], history[|history| - 1];
    if last.key == key {
      assert history[|history| - 1] == Sighting(key, last.endpoint);
    } else {
      assert before + [last] == history;
      KeysOfAppend(before, last);
      LatestIsLastSeen(before, key);
      var i :| && 0 <= i < |before| && before[i] == Sighting(key, Latest(before, key))
               && forall j :: i < j < |before| ==> before[j].key != key;
      assert history[i] == before[i];
      forall j | i < j < |history| ensures history[j].key != key {
        assert j < |before| ==> history[j] == before[j];
      }
    }
  }

  lemma LastSeenIsUnique(history: seq<Sighting>, key: Key, a: EndpointId, b: EndpointId)
    requires LastSeenOn(history, key, a) && LastSeenOn(history, key, b)
    ensures a == b
  {
    var i :| && 0 <= i < |history| && history[i] == Sighting(key, a)
             && forall j :: i < j < |history| ==> history[j].key != key;
    var k :| && 0 <= k < |history| && history[k] == Sighting(key, b)
             && forall j :: k < j < |history| ==> history[j].key != key;
    assert history[i].key == key && history[k].key == key;
  }

  lemma {:induction false} PeersFlood(endpoints: seq<EndpointId>, source: EndpointId)
    ensures Floods(endpoints, source, Peers(endpoints, source))
  {
    if endpoints != [] {
      var first, rest := endpoints[0], endpoints[1..];
      PeersFlood(rest, source);
      assert endpoints == [first] + rest;
      assert multiset(endpoints) == multiset{first} + multiset(rest);
    }
  }

  /** The recipients the table names are the ones the bytes and the sightings call for. */
  lemma RecipientsRoute(endpoints: seq<EndpointId>, history: seq<Sighting>, capacity: nat, source: EndpointId,
                        parsed: ParsedFrame)
    requires |parsed.destination| == 6 && parsed.class_ == Classify(parsed.destination)
    ensures Routes(endpoints, history, capacity, source, Key(parsed.destination, parsed.vlan),
                   Recipients(endpoints, history, capacity, source, parsed))
  {
    var key := Key(parsed.destination, parsed.vlan);
    ClassesByBytes(parsed.destination);
    if Located(history, capacity, key) {
      EarlyIsSighted(history, key, capacity);
      LatestIsLastSeen(history, key);
    } else {
      PeersFlood(endpoints, source);
    }
  }

  /** With two distinct endpoints the peer is the one recipient, unless the destination is a
      station last seen on the source's own side; then there is none. */
  lemma PairHasOneRecipient(a: EndpointId, b: EndpointId, history: seq<Sighting>, capacity: nat, source: EndpointId,
                            parsed: ParsedFrame)
    requires a != b && source in [a, b] && FromMembers(history, [a, b])
    requires |parsed.destination| == 6 && parsed.class_ == Classify(parsed.destination)
    ensures var key := Key(parsed.destination, parsed.vlan);
            Recipients([a, b], history, capacity, source, parsed) ==
            if Located(history, capacity, key) && LastSeenOn(history, key, source) then []
            else [if source == a then b else a]
  {
    var key := Key(parsed.destination, parsed.vlan);
    ClassesByBytes(parsed.destination);
    assert [a, b][1..] == [b] && [b][1..] == [];
    assert Peers([b], source) == if b == source then [] else [b];
    if Located(history, capacity, key) {
      EarlyIsSighted(history, key, capacity);
      LatestIsMember(history, [a, b], key);
      LatestIsLastSeen(history, key);
      if LastSeenOn(history, key, source) {
        LastSeenIsUnique(history, key, source, Latest(history, key));
      }
    }
  }

  /** The sightings after a frame: the source address of a well-formed one is noted. */
  function Noted(history: seq<Sighting>, source: EndpointId, frame: seq<Byte>): seq<Sighting> {
    if ParseFrame(frame).Ok?
    then history + [Sighting(Key(frame[6..12], ParseFrame(frame).value.vlan), source)]
    else history
  }

  class Switch {
    const endpoints: seq<EndpointId>
    const fdb: ForwardingDatabase

    ghost predicate Valid()
      reads this, fdb
    {
      fdb.Valid() && FromMembers(fdb.history, endpoints)
    }

    constructor (endpoints: seq<EndpointId>)
      requires endpoints != []
      ensures Valid() && fresh(fdb) && fdb.history == [] && this.endpoints == endpoints
    {
      this.endpoints := endpoints;
      fdb := new ForwardingDatabase();
    }

    /** Learns the source of an acceptable frame and names its recipients. A refused frame
        teaches nothing. The member test on the looked-up endpoint never fails. */
    method Forward(source: EndpointId, frame: seq<Byte>) returns (r: Result<seq<EndpointId>, ForwardingError>)
      requires Valid()
      modifies fdb
      ensures Valid()
      ensures source !in endpoints ==> r == Err(UnknownEndpoint) && fdb.history == old(fdb.history)
      ensures source in endpoints && ParseFrame(frame).Err? ==>
                r == Err(InvalidFrame(ParseFrame(frame).error)) && fdb.history == old(fdb.history)
      ensures source in endpoints && ParseFrame(frame).Ok? ==>
                var parsed := ParseFrame(frame).value;
                && fdb.history == old(fdb.history) + [Sighting(Key(parsed.source, parsed.vlan), source)]
                && r == Ok(Recipients(endpoints, fdb.history, fdb.capacity, source, parsed))
                && Routes(endpoints, fdb.history, fdb.capacity, source, Key(frame[0..6], parsed.vlan), r.value)
    {
      if source !in endpoints {
        return Err(UnknownEndpoint);
      }
      var outcome := ParseFrame(frame);
      if outcome.Err? {
        return Err(InvalidFrame(outcome.error));
      }
      var parsed := outcome.value;
      fdb.Learn(parsed, source);
      RecipientsRoute(endpoints, fdb.history, fdb.capacity, source, parsed);
      if parsed.class_ == Unicast {
        var destination := fdb.Lookup(parsed);
        if destination.Some? {
          LatestIsMember(fdb.history, endpoints, Key(parsed.destination, parsed.vlan));
          if destination.value != source && destination.value in endpoints {
            return Ok([destination.value]);
          }
          return Ok([]);
        }
      }
      return Ok(Peers(endpoints, source));
    }
  }
}
