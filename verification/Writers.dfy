/** Any number of ledger handles, in any number of processes, appending to one log
    and dying at any byte of a write. */
module Writers {
  import opened Events
  import opened Lines
  import opened Ledger

  datatype Fleet = Fleet(disk: Bytes, handles: map<nat, Handle>, acked: seq<Event>)

  /** One operation holding the file lock, or a process going away. */
  datatype Op =
    | Open(id: nat)
    | OpenReadOnly(id: nat)  // the lock file cannot be created: scanned, not repaired
    | Append(id: nat, event: Event, fate: Fate)
    | Update(id: nat, decide: seq<Event> -> Option<seq<Event>>, fate: Fate)
    | Die(id: nat)

  const NO_WRITERS := Fleet([], map[], [])

  function Finish(f: Fleet, id: nat, written: (Bytes, Handle, Option<seq<Event>>)): Fleet {
    Fleet(written.0, f.handles[id := written.1], f.acked + written.2.GetOr([]))
  }

  function Do(c: Codec, f: Fleet, op: Op): Fleet {
    match op
    case Die(id) => f.(handles := f.handles - {id})
    case OpenReadOnly(id) =>
      var scan := ScanLog(c, f.disk, 0);
      if scan.Scanned? then f.(handles := f.handles[id := Handle(LastNum(scan.lines, 1), scan.valid)]) else f
    case Open(id) => (
      match Synced(c, f.disk, UNKNOWN)
      case None => f
      case Some((disk, h)) => f.(disk := disk, handles := f.handles[id := h]))
    case Append(id, e, fate) =>
      if id !in f.handles then f else (
      match Synced(c, f.disk, f.handles[id])
      case None => f
      case Some((disk, h)) => Finish(f, id, Written(c, disk, h, [e], fate)))
    case Update(id, decide, fate) =>
      if id !in f.handles then f else (
      match Synced(c, f.disk, f.handles[id])
      case None => f
      case Some((disk, h)) => (
        match Decided(c, disk, decide)
        case None => f.(disk := disk, handles := f.handles[id := h])
        case Some(more) => Finish(f, id, Written(c, disk, h, more, fate))))
  }

  function Run(c: Codec, ops: seq<Op>): Fleet {
    if ops == [] then NO_WRITERS else Do(c, Run(c, ops[..|ops| - 1]), ops[|ops| - 1])
  }

  ghost predicate Inv(c: Codec, f: Fleet, events: seq<Event>) {
    && Holds(c, f.disk, events)
    && (forall id :: id in f.handles ==> Knows(c, events, f.handles[id]))
    && (forall e :: e in f.acked ==> e in events)
  }

  /** A longer log still knows every moment of the shorter one. */
  lemma StillKnows(c: Codec, events: seq<Event>, more: seq<Event>, h: Handle)
    requires Knows(c, events, h)
    ensures Knows(c, events + more, h)
  {
    var k :| 0 <= k <= |events| && h == Handle(k + 1, |EncodeAll(c, events[..k])|);
    assert (events + more)[..k] == events[..k];
  }

  lemma KnowsNothing(c: Codec, events: seq<Event>)
    ensures Knows(c, events, UNKNOWN)
  {
    assert events[..0] == [];
  }

  lemma WriteKeepsInv(c: Codec, f: Fleet, events: seq<Event>, id: nat, more: seq<Event>, fate: Fate)
    returns (events': seq<Event>)
    requires Sound(c) && Inv(c, f, events)
    ensures var h := Handle(|events| + 1, |EncodeAll(c, events)|);
            events <= events' && Inv(c, Finish(f, id, Written(c, EncodeAll(c, events), h, more, fate)), events')
  {
    var h := Handle(|events| + 1, |EncodeAll(c, events)|);
    var kept := WriteIsExact(c, events, more, fate);
    var tail := Number(more, |events| + 1)[..kept];
    events' := events + tail;
    forall j | j in f.handles ensures Knows(c, events', f.handles[j]) {
      StillKnows(c, events, tail, f.handles[j]);
    }
  }

  lemma DoKeepsInv(c: Codec, f: Fleet, events: seq<Event>, op: Op) returns (events': seq<Event>)
    requires Sound(c) && Inv(c, f, events)
    ensures events <= events' && Inv(c, Do(c, f, op), events')
  {
    var h := Handle(|events| + 1, |EncodeAll(c, events)|);
    events' := events;
    assert events[..|events|] == events && Knows(c, events, h);
    KnowsNothing(c, events);
    SyncIsExact(c, f.disk, events, UNKNOWN);
    match op {
      case Die(_) =>
      case OpenReadOnly(_) =>
        ReadsBack(c, f.disk, events);
      case Open(_) =>
      case Append(id, e, fate) =>
        if id in f.handles {
          SyncIsExact(c, f.disk, events, f.handles[id]);
          events' := WriteKeepsInv(c, f, events, id, [e], fate);
        }
      case Update(id, decide, fate) =>
        if id in f.handles {
          SyncIsExact(c, f.disk, events, f.handles[id]);
          var more := Decided(c, EncodeAll(c, events), decide);
          if more.Some? { events' := WriteKeepsInv(c, f, events, id, more.value, fate); }
        }
    }
  }

  /** A lock-free reader of a good log sees exactly its events. */
  lemma ReadsBack(c: Codec, disk: Bytes, events: seq<Event>)
    requires Sound(c) && Holds(c, disk, events)
    ensures ScanLog(c, disk, 0) == Scanned(RawLines(c, events), |EncodeAll(c, events)|)
    ensures EventsOf(RawLines(c, events)) == events
    ensures LastNum(RawLines(c, events), 1) == |events| + 1
  {
    assert events[..0] == [] && events[0..] == events;
    ScanHolds(c, disk, events, 0, 0);
  }

  lemma {:induction false} RunKeepsInv(c: Codec, ops: seq<Op>) returns (events: seq<Event>)
    requires Sound(c)
    ensures Inv(c, Run(c, ops), events)
  {
    if ops == [] {
      events := [];
    } else {
      var before := RunKeepsInv(c, ops[..|ops| - 1]);
      events := DoKeepsInv(c, Run(c, ops[..|ops| - 1]), before, ops[|ops| - 1]);
    }
  }

  /** The events a reader finds on disk. */
  function OnDisk(c: Codec, disk: Bytes): seq<Event> {
    var scan := ScanLog(c, disk, 0);
    if scan.Scanned? then EventsOf(scan.lines) else []
  }

  /** Whatever the handles do and wherever they die: the log always reads back,
      numbered exactly 1..N; every acknowledged event is on it; and each handle's
      next sync succeeds and leaves it about to write number N + 1. */
  lemma LogIsGapless(c: Codec, ops: seq<Op>)
    requires Sound(c)
    ensures var f := Run(c, ops);
            var events := OnDisk(c, f.disk);
            && ScanLog(c, f.disk, 0).Scanned?
            && NumberedFrom(events, 1)
            && (forall e :: e in f.acked ==> e in events)
            && forall id :: id in f.handles ==>
                 Synced(c, f.disk, f.handles[id]) == Some((EncodeAll(c, events),
                                                           Handle(|events| + 1, |EncodeAll(c, events)|)))
  {
    var f := Run(c, ops);
    var events := RunKeepsInv(c, ops);
    ReadsBack(c, f.disk, events);
    forall id | id in f.handles
      ensures Synced(c, f.disk, f.handles[id]) == Some((EncodeAll(c, events),
                                                        Handle(|events| + 1, |EncodeAll(c, events)|)))
    {
      SyncIsExact(c, f.disk, events, f.handles[id]);
    }
  }

  /** Nothing once readable ever disappears or moves. */
  lemma {:induction false} LogOnlyGrows(c: Codec, ops: seq<Op>, k: nat)
    requires Sound(c) && k <= |ops|
    ensures OnDisk(c, Run(c, ops[..k]).disk) <= OnDisk(c, Run(c, ops).disk)
  {
    if k == |ops| {
      assert ops[..k] == ops;
    } else {
      var init := ops[..|ops| - 1];
      assert init[..k] == ops[..k];
      LogOnlyGrows(c, init, k);
      var before := RunKeepsInv(c, init);
      var events := DoKeepsInv(c, Run(c, init), before, ops[|ops| - 1]);
      ReadsBack(c, Run(c, init).disk, before);
      ReadsBack(c, Run(c, ops).disk, events);
    }
  }

  /** A transaction decides on exactly the log its events will follow. */
  lemma TransactionSeesTheLog(c: Codec, ops: seq<Op>, id: nat, decide: seq<Event> -> Option<seq<Event>>)
    requires Sound(c) && id in Run(c, ops).handles
    ensures var f := Run(c, ops);
            var synced := Synced(c, f.disk, f.handles[id]);
            synced.Some? && Decided(c, synced.value.0, decide) == decide(OnDisk(c, f.disk))
  {
    var f := Run(c, ops);
    var events := RunKeepsInv(c, ops);
    SyncIsExact(c, f.disk, events, f.handles[id]);
    ReadsBack(c, f.disk, events);
    ReadsBack(c, EncodeAll(c, events), events);
  }
}
