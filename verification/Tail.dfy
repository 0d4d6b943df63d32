/** Following a log while others write it (tailLog in cmd/aoa/main.go). */
module Tail {
  import opened Events
  import opened Lines
  import opened Ledger

  /** Where a follower is: the offset to read from, and the last number handed over. */
  datatype Cursor = Cursor(offset: nat, last: int)

  /** The lines numbered above `last`, each above the one before it. */
  function NewLines(lines: seq<RawLine>, last: int): seq<RawLine> {
    if lines == [] then []
    else if lines[0].event.num <= last then NewLines(lines[1..], last)
    else [lines[0]] + NewLines(lines[1..], lines[0].event.num)
  }

  function LastOf(lines: seq<RawLine>, last: int): int {
    if lines == [] then last
    else LastOf(lines[1..], if lines[0].event.num <= last then last else lines[0].event.num)
  }

  /** One read of the log, whatever it now holds: the cursor to go on from and the
      lines to hand over; None when the log is corrupt. */
  function Poll(c: Codec, disk: Bytes, at: Cursor): Option<(Cursor, seq<RawLine>)> {
    match ScanLog(c, disk, at.offset)
    case Corrupt => None
    case Shrank => Some((Cursor(0, at.last), []))
    case Scanned(lines, next) => Some((Cursor(next, LastOf(lines, at.last)), NewLines(lines, at.last)))
  }

  /** Everything handed over, reading each of `disks` in turn, until one is corrupt. */
  ghost function Followed(c: Codec, disks: seq<Bytes>, at: Cursor): seq<RawLine> {
    if disks == [] then [] else
    match Poll(c, disks[0], at)
    case None => []
    case Some((next, out)) => out + Followed(c, disks[1..], next)
  }

  method PickNew(lines: seq<RawLine>, since: int) returns (news: seq<RawLine>, last: int)
    ensures news == NewLines(lines, since) && last == LastOf(lines, since)
  {
    last := since;
    news := [];
    for i := 0 to |lines|
      invariant NewLines(lines, since) == news + NewLines(lines[i..], last)
      invariant LastOf(lines, since) == LastOf(lines[i..], last)
    {
      assert lines[i..][1..] == lines[i + 1..];
      if lines[i].event.num > last {
        last := lines[i].event.num;
        news := news + [lines[i]];
      }
    }
  }

  method TailLog(c: Codec, disks: seq<Bytes>, since: int) returns (emitted: seq<RawLine>)
    ensures emitted == Followed(c, disks, Cursor(0, since))
  {
    emitted := [];
    var offset: nat := 0;
    var last := since;
    var turn := 0;
    while turn < |disks|
      invariant 0 <= turn <= |disks|
      invariant Followed(c, disks, Cursor(0, since)) == emitted + Followed(c, disks[turn..], Cursor(offset, last))
    {
      assert disks[turn..][1..] == disks[turn + 1..];
      ghost var rest := Followed(c, disks[turn..], Cursor(offset, last));
      var scan := ScanLines(c, disks[turn], offset);
      turn := turn + 1;
      if scan.Shrank? {
        offset := 0;
        assert rest == Followed(c, disks[turn..], Cursor(offset, last));
        continue;
      }
      if scan.Corrupt? {
        assert emitted + [] == emitted;
        return;
      }
      offset := scan.valid;
      var news: seq<RawLine>;
      news, last := PickNew(scan.lines, last);
      emitted := emitted + news;
    }
    assert emitted + [] == emitted;
  }

  // --- Never twice, never backwards --------------------------------------------------------------

  ghost predicate Rising(lines: seq<RawLine>, above: int) {
    && (forall i :: 0 <= i < |lines| ==> lines[i].event.num > above)
    && forall i, j :: 0 <= i < j < |lines| ==> lines[i].event.num < lines[j].event.num
  }

  lemma {:induction false} NewLinesRise(lines: seq<RawLine>, last: int)
    ensures var out := NewLines(lines, last);
            Rising(out, last) && last <= LastOf(lines, last) &&
            forall i :: 0 <= i < |out| ==> out[i].event.num <= LastOf(lines, last)
  {
    if lines != [] {
      NewLinesRise(lines[1..], if lines[0].event.num <= last then last else lines[0].event.num);
    }
  }

  /** Whatever happens to the file between reads, numbers handed over only rise. */
  lemma {:induction false} FollowingOnlyRises(c: Codec, disks: seq<Bytes>, at: Cursor)
    ensures Rising(Followed(c, disks, at), at.last)
  {
    if disks != [] && Poll(c, disks[0], at).Some? {
      var (next, out) := Poll(c, disks[0], at).value;
      FollowingOnlyRises(c, disks[1..], next);
      match ScanLog(c, disks[0], at.offset) {
        case Scanned(lines, _) => NewLinesRise(lines, at.last);
        case Shrank =>
      }
    }
  }

  // --- Nothing missed ----------------------------------------------------------------------------

  /** Reads of an append-only log: each holds the events of the one before and maybe
      more, behind whatever torn tail a writer left or is still writing. */
  ghost predicate AppendOnly(c: Codec, disks: seq<Bytes>, logs: seq<seq<Event>>) {
    && |disks| == |logs|
    && (forall i :: 0 <= i < |disks| ==> Holds(c, disks[i], logs[i]))
    && forall i, j :: 0 <= i < j < |disks| ==> logs[i] <= logs[j]
  }

  function Max(a: int, b: int): int { if a < b then b else a }

  /** The events of a log numbered above `since`. */
  function Above(log: seq<Event>, since: int): seq<Event> {
    if since <= 0 then log else if since < |log| then log[since..] else []
  }

  lemma {:induction false} NewLinesOfNumbered(c: Codec, events: seq<Event>, first: int, last: int)
    requires NumberedFrom(events, first) && first <= last + 1
    ensures NewLines(RawLines(c, events), last) ==
            RawLines(c, Above(events, last + 1 - first))
    ensures LastOf(RawLines(c, events), last) == Max(last, first + |events| - 1)
  {
    if events != [] {
      assert RawLines(c, events)[1..] == RawLines(c, events[1..]);
      NewLinesOfNumbered(c, events[1..], first + 1, if first <= last then last else first);
      if first > last {
        assert RawLines(c, events) == [RawLine(events[0], c.encode(events[0]))] + RawLines(c, events[1..]);
      }
    }
  }

  lemma AboveSplits(now: seq<Event>, all: seq<Event>, last: nat)
    requires now <= all
    ensures Above(all, last) == Above(now, last) + Above(all, Max(last, |now|))
  {
    assert all[..|now|] == now;
  }

  lemma RawLinesConcat(c: Codec, a: seq<Event>, b: seq<Event>)
    ensures RawLines(c, a + b) == RawLines(c, a) + RawLines(c, b)
  {
  }

  lemma AboveRest(now: seq<Event>, k: nat, last: nat)
    requires k <= |now| && k <= last
    ensures Above(now[k..], last - k) == Above(now, last)
  {
  }

  lemma PollOnce(c: Codec, disk: Bytes, now: seq<Event>, seen: seq<Event>, last: nat)
    requires Sound(c) && Holds(c, disk, now) && seen <= now && |seen| <= last
    ensures Poll(c, disk, Cursor(|EncodeAll(c, seen)|, last)) ==
            Some((Cursor(|EncodeAll(c, now)|, Max(last, |now|)), RawLines(c, Above(now, last))))
  {
    var k := |seen|;
    assert now[..k] == seen;
    var at := |EncodeAll(c, seen)|;
    BoundaryInside(c, disk, now, k);
    BoundaryStartsLine(c, disk, now, k);
    ScanHolds(c, disk, now, k, at);
    AboveRest(now, k, last);
    NewLinesOfNumbered(c, now[k..], k + 1, last);
  }

  /** On an append-only log a follower that has handed over everything up to some
      point hands over the rest exactly once, each as the whole line written. */
  lemma {:induction false} FollowsOn(c: Codec, disks: seq<Bytes>, logs: seq<seq<Event>>, seen: seq<Event>, last: nat)
    requires Sound(c) && AppendOnly(c, disks, logs) && |seen| <= last && disks != [] && seen <= logs[0]
    ensures Followed(c, disks, Cursor(|EncodeAll(c, seen)|, last)) == RawLines(c, Above(logs[|logs| - 1], last))
    decreases |disks|
  {
    var now, all := logs[0], logs[|logs| - 1];
    PollOnce(c, disks[0], now, seen, last);
    if |disks| == 1 {
      assert RawLines(c, Above(now, last)) + [] == RawLines(c, Above(now, last));
    } else {
      assert now <= logs[1] && now <= all;
      LaterReads(c, disks, logs);
      FollowsOn(c, disks[1..], logs[1..], now, Max(last, |now|));
      AboveSplits(now, all, last);
      RawLinesConcat(c, Above(now, last), Above(all, Max(last, |now|)));
    }
  }

  lemma LaterReads(c: Codec, disks: seq<Bytes>, logs: seq<seq<Event>>)
    requires AppendOnly(c, disks, logs) && |disks| > 1
    ensures AppendOnly(c, disks[1..], logs[1..]) && logs[1..][|logs| - 2] == logs[|logs| - 1]
  {
    forall i, j | 0 <= i < j < |disks[1..]| ensures logs[1..][i] <= logs[1..][j] {
      assert logs[i + 1] <= logs[j + 1];
    }
  }

  /** Following from `since` hands over every event after it, exactly once and in
      order, and never part of a line. */
  lemma FollowingMissesNothing(c: Codec, disks: seq<Bytes>, logs: seq<seq<Event>>, since: int)
    requires Sound(c) && AppendOnly(c, disks, logs) && since >= 0 && disks != []
    ensures Followed(c, disks, Cursor(0, since)) == RawLines(c, Above(logs[|logs| - 1], since))
  {
    assert EncodeAll(c, []) == [];
    FollowsOn(c, disks, logs, [], since);
  }
}
