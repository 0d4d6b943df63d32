/** The append-only log file and the handles that write it
    (internal/ledger/ledger.go). */
module Ledger {
  import opened Events
  import opened Lines

  // --- What is on disk ---------------------------------------------------------------------------

  /** Events as they are written: one encoded line each. */
  function EncodeAll(c: Codec, events: seq<Event>): Bytes {
    if events == [] then [] else EncodeAll(c, events[..|events| - 1]) + c.encode(events[|events| - 1]) + [NEWLINE]
  }

  function RawLines(c: Codec, events: seq<Event>): (r: seq<RawLine>)
    ensures |r| == |events|
  {
    seq(|events|, i requires 0 <= i < |events| => RawLine(events[i], c.encode(events[i])))
  }

  /** Sequence numbers are exactly first, first + 1, ... in order. */
  ghost predicate NumberedFrom(events: seq<Event>, first: int) {
    forall i :: 0 <= i < |events| ==> events[i].num == first + i
  }

  /** The log holds exactly `events`, numbered from 1, as complete lines; whatever
      follows them is a line some writer never finished. */
  ghost predicate Holds(c: Codec, disk: Bytes, events: seq<Event>) {
    && NumberedFrom(events, 1)
    && EncodeAll(c, events) <= disk
    && NEWLINE !in disk[|EncodeAll(c, events)|..]
  }

  lemma {:induction false} EncodeAppends(c: Codec, a: seq<Event>, b: seq<Event>)
    ensures EncodeAll(c, a + b) == EncodeAll(c, a) + EncodeAll(c, b)
  {
    if b == [] {
      assert a + b == a;
    } else {
      EncodeAppends(c, a, b[..|b| - 1]);
      assert (a + b)[..|a + b| - 1] == a + b[..|b| - 1];
    }
  }

  lemma {:induction false} LineEndAt(data: Bytes, i: nat, j: nat)
    requires i <= j <= |data| && NEWLINE !in data[i..j] && (j < |data| ==> data[j] == NEWLINE)
    ensures LineEnd(data, i) == j
    decreases j - i
  {
    if i < j {
      assert data[i] == data[i..j][0];
      assert data[i + 1..j] == data[i..j][1..];
      LineEndAt(data, i + 1, j);
    }
  }

  lemma EncodedPrefix(c: Codec, events: seq<Event>, k: nat)
    requires k <= |events|
    ensures EncodeAll(c, events[..k]) <= EncodeAll(c, events)
  {
    assert events == events[..k] + events[k..];
    EncodeAppends(c, events[..k], events[k..]);
  }

  /** Event k's line, where it lies on disk. */
  lemma LineOnDisk(c: Codec, disk: Bytes, events: seq<Event>, k: nat)
    requires Sound(c) && EncodeAll(c, events) <= disk && k < |events|
    ensures var at := |EncodeAll(c, events[..k])|;
            var end := at + |c.encode(events[k])|;
            && end < |disk| && disk[at..end] == c.encode(events[k]) && LineEnd(disk, at) == end
            && |EncodeAll(c, events[..k + 1])| == end + 1
  {
    var before, line := EncodeAll(c, events[..k]), c.encode(events[k]);
    EncodedPrefix(c, events, k + 1);
    assert events[..k + 1][..k] == events[..k];
    var upTo := before + line + [NEWLINE];
    assert upTo <= disk;
    assert disk[..|upTo|] == upTo;
    assert disk[|before|..|before| + |line|] == upTo[|before|..|before| + |line|] == line;
    assert disk[|before| + |line|] == upTo[|before| + |line|];
    LineEndAt(disk, |before|, |before| + |line|);
  }

  lemma RawLinesSplit(c: Codec, events: seq<Event>, k: nat)
    requires k < |events|
    ensures RawLines(c, events[k..]) == [RawLine(events[k], c.encode(events[k]))] + RawLines(c, events[k + 1..])
  {
  }

  lemma ScanOneLine(c: Codec, disk: Bytes, at: nat, end: nat, e: Event)
    requires Sound(c) && at <= end < |disk| && LineEnd(disk, at) == end && disk[at..end] == c.encode(e)
    ensures ScanFrom(c, disk, at) == Prepend([RawLine(e, c.encode(e))], ScanFrom(c, disk, end + 1))
  {
    assert c.parse(c.encode(e)) == Good(e);
  }

  lemma ScanTornTail(c: Codec, disk: Bytes, events: seq<Event>)
    requires EncodeAll(c, events) <= disk && NEWLINE !in disk[|EncodeAll(c, events)|..]
    ensures ScanFrom(c, disk, |EncodeAll(c, events)|) == Scanned(RawLines(c, []), |EncodeAll(c, events)|)
  {
    LineEndAt(disk, |EncodeAll(c, events)|, |disk|);
  }

  lemma PrependLine(c: Codec, events: seq<Event>, k: nat, valid: nat)
    requires k < |events|
    ensures Prepend([RawLine(events[k], c.encode(events[k]))], Scanned(RawLines(c, events[k + 1..]), valid)) ==
            Scanned(RawLines(c, events[k..]), valid)
  {
    RawLinesSplit(c, events, k);
  }

  /** A scan of a log that starts at a line boundary yields exactly the complete
      lines after it. */
  lemma {:induction false} ScanHolds(c: Codec, disk: Bytes, events: seq<Event>, k: nat, at: nat)
    requires Sound(c) && Holds(c, disk, events) && k <= |events|
    requires at == |EncodeAll(c, events[..k])| && at <= |disk|
    ensures ScanFrom(c, disk, at) == Scanned(RawLines(c, events[k..]), |EncodeAll(c, events)|)
    decreases |events| - k
  {
    if k == |events| {
      assert events[..k] == events && events[k..] == [];
      ScanTornTail(c, disk, events);
    } else {
      LineOnDisk(c, disk, events, k);
      var end := at + |c.encode(events[k])|;
      ScanHolds(c, disk, events, k + 1, end + 1);
      ScanOneLine(c, disk, at, end, events[k]);
      PrependLine(c, events, k, |EncodeAll(c, events)|);
    }
  }

  lemma BoundaryStartsLine(c: Codec, disk: Bytes, events: seq<Event>, k: nat)
    requires Sound(c) && EncodeAll(c, events) <= disk && k <= |events|
    ensures StartsLine(disk, |EncodeAll(c, events[..k])|)
  {
    if k > 0 {
      LineOnDisk(c, disk, events, k - 1);
    }
  }

  /** Part of a batch's bytes is some of its lines whole, then part of one more. */
  lemma {:induction false} PartOfBatch(c: Codec, events: seq<Event>, n: nat) returns (k: nat)
    requires Sound(c) && n <= |EncodeAll(c, events)|
    ensures k <= |events| && |EncodeAll(c, events[..k])| <= n
    ensures EncodeAll(c, events[..k]) <= EncodeAll(c, events)[..n]
    ensures NEWLINE !in EncodeAll(c, events)[|EncodeAll(c, events[..k])|..n]
    ensures n == |EncodeAll(c, events)| ==> k == |events|
  {
    if n == |EncodeAll(c, events)| {
      assert events[..|events|] == events;
      return |events|;
    }
    var init := events[..|events| - 1];
    var before := EncodeAll(c, init);
    var line := c.encode(events[|events| - 1]);
    var all := EncodeAll(c, events);
    assert all == before + (line + [NEWLINE]);
    if n <= |before| {
      k := PartOfBatch(c, init, n);
      assert init[..k] == events[..k];
      assert all[..n] == before[..n];
      assert all[|EncodeAll(c, events[..k])|..n] == before[|EncodeAll(c, events[..k])|..n];
    } else {
      k := |events| - 1;
      assert all[|before|..n] == line[..n - |before|];
    }
  }

  // --- What a handle does ------------------------------------------------------------------------

  /** What a handle knows: the next sequence number, and the bytes accounted for. */
  datatype Handle = Handle(nextSeq: int, size: nat)

  const UNKNOWN := Handle(1, 0)

  function LastNum(lines: seq<RawLine>, otherwise: int): int {
    if |lines| > 0 then lines[|lines| - 1].event.num + 1 else otherwise
  }

  /** Brings a handle up to date, cutting off a torn tail: the new disk and handle,
      or None when the log is corrupt. */
  function Synced(c: Codec, disk: Bytes, h: Handle): Option<(Bytes, Handle)> {
    if |disk| == h.size then Some((disk, h)) else
    var h1 := if |disk| < h.size then UNKNOWN else h;
    var first := ScanLog(c, disk, h1.size);
    var (h2, scan) := if !first.Scanned? && h1.size > 0 then (UNKNOWN, ScanLog(c, disk, 0)) else (h1, first);
    if !scan.Scanned? then None else
    var disk' := if |disk| > scan.valid && scan.valid <= |disk| then disk[..scan.valid] else disk;
    Some((disk', Handle(LastNum(scan.lines, h2.nextSeq), scan.valid)))
  }

  function Number(events: seq<Event>, first: int): (r: seq<Event>)
    ensures |r| == |events| && forall i :: 0 <= i < |r| ==> r[i] == events[i].(num := first + i)
  {
    seq(|events|, i requires 0 <= i < |events| => events[i].(num := first + i))
  }

  /** How a write ends: whole, or failing (the process dying included) after some
      of its bytes have landed. */
  datatype Fate = Whole | Torn(landed: nat)

  function Landed(buf: Bytes, fate: Fate): Bytes {
    if fate.Whole? || fate.landed >= |buf| then buf else buf[..fate.landed]
  }

  /** Appends events in one write. */
  function Written(c: Codec, disk: Bytes, h: Handle, events: seq<Event>, fate: Fate): (Bytes, Handle,
          Option<seq<Event>>) {
    if events == [] then (disk, h, Some([])) else
    var stored := Number(events, h.nextSeq);
    var buf := EncodeAll(c, stored);
    if fate.Whole? then (disk + buf, Handle(h.nextSeq + |events|, h.size + |buf|), Some(stored))
    else (disk + Landed(buf, fate), UNKNOWN, None)
  }

  class Disk {
    var bytes: Bytes
    constructor ()
      ensures bytes == []
    {
      bytes := [];
    }
  }

  /** One open handle. Its methods run holding the cross-process file lock. */
  class Log {
    const c: Codec
    const disk: Disk
    var nextSeq: int
    var size: nat

    constructor (c: Codec, disk: Disk)
      ensures this.c == c && this.disk == disk && View() == UNKNOWN
    {
      this.c, this.disk, nextSeq, size := c, disk, 1, 0;
    }

    function View(): Handle
      reads this
    {
      Handle(nextSeq, size)
    }

    method Sync() returns (ok: bool)
      modifies this, disk
      ensures var s := Synced(c, old(disk.bytes), old(View()));
              ok == s.Some? &&
              if ok then (disk.bytes, View()) == s.value else disk.bytes == old(disk.bytes)
    {
      var length := |disk.bytes|;
      if length == size { return true; }
      if length < size { size, nextSeq := 0, 1; }
      var scan := ScanLines(c, disk.bytes, size);
      if !scan.Scanned? && size > 0 {
        size, nextSeq := 0, 1;
        scan := ScanLines(c, disk.bytes, 0);
      }
      if !scan.Scanned? { return false; }
      if length > scan.valid { disk.bytes := disk.bytes[..scan.valid]; }
      size := scan.valid;
      if |scan.lines| > 0 { nextSeq := scan.lines[|scan.lines| - 1].event.num + 1; }
      return true;
    }

    method Write(events: seq<Event>, fate: Fate) returns (stored: Option<seq<Event>>)
      modifies this, disk
      ensures (disk.bytes, View(), stored) == Written(c, old(disk.bytes), old(View()), events, fate)
    {
      if |events| == 0 { return Some([]); }
      var out: seq<Event> := [];
      var buf: Bytes := [];
      for i := 0 to |events|
        invariant out == Number(events, nextSeq)[..i] && buf == EncodeAll(c, out)
      {
        var e := events[i].(num := nextSeq + i);
        assert (out + [e])[..|out + [e]| - 1] == out;
        buf := buf + c.encode(e) + [NEWLINE];
        out := out + [e];
      }
      assert out == Number(events, nextSeq);
      disk.bytes := disk.bytes + Landed(buf, fate);
      if fate.Torn? {
        size, nextSeq := 0, 1;
        return None;
      }
      size := size + |buf|;
      nextSeq := nextSeq + |events|;
      return Some(out);
    }

    /** Appends one event; None when the log is corrupt or the write failed. */
    method Append(e: Event, fate: Fate) returns (stored: Option<Event>)
      modifies this, disk
      ensures var s := Synced(c, old(disk.bytes), old(View()));
              if s.None? then stored.None? && disk.bytes == old(disk.bytes) else
              var (disk', h, out) := Written(c, s.value.0, s.value.1, [e], fate);
              (disk.bytes, View()) == (disk', h) &&
              stored == if out.Some? then Some(e.(num := s.value.1.nextSeq)) else None
    {
      var ok := Sync();
      if !ok { return None; }
      var out := Write([e], fate);
      return if out.Some? then Some(out.value[0]) else None;
    }

    /** A read-decide-append transaction: no other writer comes between. */
    method Update(decide: seq<Event> -> Option<seq<Event>>, fate: Fate) returns (stored: Option<seq<Event>>)
      modifies this, disk
      ensures var s := Synced(c, old(disk.bytes), old(View()));
              if s.None? then stored.None? && disk.bytes == old(disk.bytes) else
              var decided := Decided(c, s.value.0, decide);
              if decided.None? then stored.None? && (disk.bytes, View()) == s.value
              else (disk.bytes, View(), stored) == Written(c, s.value.0, s.value.1, decided.value, fate)
    {
      var ok := Sync();
      if !ok { return None; }
      var scan := ScanLines(c, disk.bytes, 0);
      if !scan.Scanned? { return None; }
      var pending := decide(EventsOf(scan.lines));
      if pending.None? { return None; }
      stored := Write(pending.value, fate);
    }
  }

  function EventsOf(lines: seq<RawLine>): (r: seq<Event>)
    ensures |r| == |lines| && forall i :: 0 <= i < |r| ==> r[i] == lines[i].event
  {
    seq(|lines|, i requires 0 <= i < |lines| => lines[i].event)
  }

  /** What a transaction decides to append, reading the whole log. */
  function Decided(c: Codec, disk: Bytes, decide: seq<Event> -> Option<seq<Event>>): Option<seq<Event>> {
    var scan := ScanLog(c, disk, 0);
    if scan.Scanned? then decide(EventsOf(scan.lines)) else None
  }

  // --- Any number of handles ---------------------------------------------------------------------

  /** What a handle knows is true of some moment of the log: the bytes it has
      accounted for end where event k ends, and the next number is k + 1. */
  ghost predicate Knows(c: Codec, events: seq<Event>, h: Handle) {
    exists k :: 0 <= k <= |events| && h == Handle(k + 1, |EncodeAll(c, events[..k])|)
  }

  lemma {:induction false} LinesTakeRoom(c: Codec, events: seq<Event>, k: nat)
    requires k <= |events|
    ensures |EncodeAll(c, events[..k])| + |events| - k <= |EncodeAll(c, events)|
    decreases |events| - k
  {
    if k < |events| {
      LinesTakeRoom(c, events, k + 1);
      assert events[..k + 1][..k] == events[..k];
    } else {
      assert events[..k] == events;
    }
  }

  lemma BoundaryInside(c: Codec, disk: Bytes, events: seq<Event>, k: nat)
    requires EncodeAll(c, events) <= disk && k <= |events|
    ensures |EncodeAll(c, events[..k])| <= |disk|
    ensures |EncodeAll(c, events[..k])| == |disk| ==> k == |events| && disk == EncodeAll(c, events)
  {
    LinesTakeRoom(c, events, k);
    assert disk[..|EncodeAll(c, events)|] == EncodeAll(c, events);
  }

  /** After a sync the tail is gone, the events are untouched, and the handle's next
      number is right, whatever the handle knew before. */
  lemma SyncIsExact(c: Codec, disk: Bytes, events: seq<Event>, h: Handle)
    requires Sound(c) && Holds(c, disk, events) && Knows(c, events, h)
    ensures Synced(c, disk, h) == Some((EncodeAll(c, events), Handle(|events| + 1, |EncodeAll(c, events)|)))
    ensures Holds(c, EncodeAll(c, events), events)
  {
    var k :| 0 <= k <= |events| && h == Handle(k + 1, |EncodeAll(c, events[..k])|);
    BoundaryInside(c, disk, events, k);
    if |disk| != h.size {
      BoundaryStartsLine(c, disk, events, k);
      ScanHolds(c, disk, events, k, h.size);
      var rest := RawLines(c, events[k..]);
      if k < |events| { assert rest[|rest| - 1].event == events[|events| - 1]; }
      SyncsTo(c, disk, events, h, rest);
    }
  }

  lemma SyncsTo(c: Codec, disk: Bytes, events: seq<Event>, h: Handle, rest: seq<RawLine>)
    requires h.size < |disk| && EncodeAll(c, events) <= disk
    requires ScanLog(c, disk, h.size) == Scanned(rest, |EncodeAll(c, events)|)
    requires LastNum(rest, h.nextSeq) == |events| + 1
    ensures Synced(c, disk, h) == Some((EncodeAll(c, events), Handle(|events| + 1, |EncodeAll(c, events)|)))
  {
    var all := EncodeAll(c, events);
    assert disk[..|all|] == all;
    if |disk| == |all| { assert disk == all; }
  }

  /** Every whole line of a write stays, and only whole lines count. */
  lemma WriteIsExact(c: Codec, events: seq<Event>, more: seq<Event>, fate: Fate) returns (kept: nat)
    requires Sound(c) && NumberedFrom(events, 1)
    ensures kept <= |more|
    ensures var h := Handle(|events| + 1, |EncodeAll(c, events)|);
            var (disk, h', stored) := Written(c, EncodeAll(c, events), h, more, fate);
            var log := events + Number(more, |events| + 1)[..kept];
            && Holds(c, disk, log) && Knows(c, log, h')
            && (stored.Some? ==> kept == |more| && stored.value == Number(more, |events| + 1))
  {
    var stored := Number(more, |events| + 1);
    var all := EncodeAll(c, events);
    var buf := EncodeAll(c, stored);
    if more == [] {
      kept := 0;
      assert events + [] == events && events[..|events|] == events;
      return;
    }
    var landed := Landed(buf, fate);
    kept := PartOfBatch(c, stored, |landed|);
    var log := events + stored[..kept];
    EncodeAppends(c, events, stored[..kept]);
    assert landed == buf[..|landed|];
    assert (all + landed)[|EncodeAll(c, log)|..] == buf[|EncodeAll(c, stored[..kept])|..|landed|];
    assert log[..|log|] == log && log[..0] == [];
    if fate.Whole? {
      assert stored[..kept] == stored;
    }
  }
}
