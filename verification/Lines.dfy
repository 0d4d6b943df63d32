/** Reading the JSONL log: complete lines, torn tails and corruption
    (ledger.scanLines). */
module Lines {
  import opened Events

  newtype byte = x: int | 0 <= x < 256
  type Bytes = seq<byte>

  const NEWLINE: byte := 10

  /** What one line, without its newline, decodes to. */
  datatype Line = Blank | Bad | Good(event: Event)

  /** The JSON encoding, abstracted: writing an event, and reading a trimmed line. */
  datatype Codec = Codec(encode: Event -> Bytes, parse: Bytes -> Line)

  ghost predicate Sound(c: Codec) {
    forall e :: c.parse(c.encode(e)) == Good(e) && NEWLINE !in c.encode(e)
  }

  datatype RawLine = RawLine(event: Event, bytes: Bytes)

  /** Lines and the offset just past the last complete, parseable one; or
      corruption before the end; or an offset that no longer starts a line. */
  datatype Scan = Scanned(lines: seq<RawLine>, valid: nat) | Corrupt | Shrank

  /** The first newline at or after i, or the end. */
  function LineEnd(data: Bytes, i: nat): (j: nat)
    requires i <= |data|
    ensures i <= j <= |data|
    ensures j < |data| ==> data[j] == NEWLINE
    decreases |data| - i
  {
    if i == |data| || data[i] == NEWLINE then i else LineEnd(data, i + 1)
  }

  function Prepend(lines: seq<RawLine>, rest: Scan): Scan {
    if rest.Scanned? then Scanned(lines + rest.lines, rest.valid) else rest
  }

  /** The lines of data from i, the start of a line. */
  function ScanFrom(c: Codec, data: Bytes, i: nat): (r: Scan)
    requires i <= |data|
    ensures !r.Shrank?
    ensures r.Scanned? ==> i <= r.valid <= |data| && (r.valid == i || data[r.valid - 1] == NEWLINE)
    decreases |data| - i
  {
    var j := LineEnd(data, i);
    if j == |data| then Scanned([], i) else
    var raw := data[i..j];
    match c.parse(raw)
    case Bad => if j + 1 < |data| then Corrupt else Scanned([], i)
    case Blank => ScanFrom(c, data, j + 1)
    case Good(e) => Prepend([RawLine(e, raw)], ScanFrom(c, data, j + 1))
  }

  predicate StartsLine(data: Bytes, offset: nat) {
    offset == 0 || (offset <= |data| && data[offset - 1] == NEWLINE)
  }

  function ScanLog(c: Codec, data: Bytes, offset: nat): Scan {
    if StartsLine(data, offset) then ScanFrom(c, data, offset) else Shrank
  }

  /** Reads the complete lines of a log from byte `offset` onward. */
  method ScanLines(c: Codec, file: Bytes, offset: nat) returns (r: Scan)
    ensures r == ScanLog(c, file, offset)
  {
    var from := if offset == 0 then 0 else offset - 1;
    var data := if from <= |file| then file[from..] else [];
    if offset > 0 {
      if |data| == 0 || data[0] != NEWLINE { return Shrank; }
      data := data[1..];
    }
    assert data == file[offset..];
    r := ScanData(c, file, data, offset);
  }

  method ScanData(c: Codec, ghost file: Bytes, data: Bytes, offset: nat) returns (r: Scan)
    requires offset <= |file| && data == file[offset..]
    ensures r == ScanFrom(c, file, offset)
  {
    var lines: seq<RawLine> := [];
    var valid := offset;
    var i := 0;
    Unprepended(ScanFrom(c, file, offset));
    while i < |data|
      invariant 0 <= i <= |data| && valid == offset + i
      invariant ScanFrom(c, file, offset) == Prepend(lines, ScanFrom(c, file, valid))
      decreases |data| - i
    {
      var j := LineEnd(data, i);
      SameLineEnd(file, data, offset, i);
      if j == |data| { break; }
      var raw := data[i..j];
      var line := c.parse(raw);
      if line == Bad {
        if j + 1 < |data| { return Corrupt; }
        break;
      }
      if line.Good? {
        PrependTwice(lines, [RawLine(line.event, raw)], ScanFrom(c, file, offset + j + 1));
        lines := lines + [RawLine(line.event, raw)];
      }
      valid := offset + j + 1;
      i := j + 1;
    }
    assert lines + [] == lines;
    return Scanned(lines, valid);
  }

  lemma PrependTwice(a: seq<RawLine>, b: seq<RawLine>, rest: Scan)
    ensures Prepend(a, Prepend(b, rest)) == Prepend(a + b, rest)
  {
    if rest.Scanned? { assert a + (b + rest.lines) == a + b + rest.lines; }
  }

  lemma {:induction false} SameLineEnd(file: Bytes, data: Bytes, offset: nat, i: nat)
    requires offset <= |file| && data == file[offset..] && i <= |data|
    ensures LineEnd(file, offset + i) == offset + LineEnd(data, i)
    ensures data[i..LineEnd(data, i)] == file[offset + i..LineEnd(file, offset + i)]
    decreases |data| - i
  {
    if i < |data| && data[i] != NEWLINE { SameLineEnd(file, data, offset, i + 1); }
  }

  // --- An incremental scan agrees with a full one ------------------------------------------------

  lemma {:induction false} LineEndGrows(p: Bytes, b: Bytes, i: nat)
    requires p <= b && i <= |p| && LineEnd(p, i) < |p|
    ensures LineEnd(b, i) == LineEnd(p, i) && b[i..LineEnd(p, i)] == p[i..LineEnd(p, i)]
    decreases |p| - i
  {
    if p[i] != NEWLINE { LineEndGrows(p, b, i + 1); }
  }

  /** `more` is what a scan of a longer log finds when one of the shorter found `seen`. */
  ghost predicate Continues(c: Codec, b: Bytes, seen: Scan, more: Scan) {
    match seen
    case Scanned(lines, valid) => valid <= |b| && more == Prepend(lines, ScanFrom(c, b, valid))
    case _ => more == Corrupt
  }

  lemma ContinuesAfter(c: Codec, b: Bytes, line: RawLine, seen: Scan, more: Scan)
    requires Continues(c, b, seen, more)
    ensures Continues(c, b, Prepend([line], seen), Prepend([line], more))
  {
    if seen.Scanned? { PrependTwice([line], seen.lines, ScanFrom(c, b, seen.valid)); }
  }

  /** Whatever a log's bytes and however it grew: scanning on from where an earlier
      scan stopped yields exactly the rest of the full scan's lines, with the same
      end; and a corrupt prefix stays corrupt. */
  lemma {:induction false} IncrementalScan(c: Codec, p: Bytes, b: Bytes, i: nat)
    requires p <= b && i <= |p|
    ensures Continues(c, b, ScanFrom(c, p, i), ScanFrom(c, b, i))
    decreases |p| - i
  {
    var j := LineEnd(p, i);
    Unprepended(ScanFrom(c, b, i));
    if j < |p| {
      LineEndGrows(p, b, i);
      var line := c.parse(p[i..j]);
      if line != Bad { IncrementalScan(c, p, b, j + 1); }
      if line.Good? {
        ContinuesAfter(c, b, RawLine(line.event, p[i..j]), ScanFrom(c, p, j + 1), ScanFrom(c, b, j + 1));
      }
    }
  }

  lemma Unprepended(r: Scan)
    ensures Prepend([], r) == r
  {
    if r.Scanned? { assert [] + r.lines == r.lines; }
  }

  /** The same, for the offsets ReadFrom is given: 0, or where an earlier call ended. */
  lemma ResumedScan(c: Codec, p: Bytes, b: Bytes, offset: nat)
    requires p <= b && ScanLog(c, p, offset).Scanned?
    ensures var seen := ScanLog(c, p, offset);
            ScanLog(c, b, seen.valid) != Shrank &&
            ScanLog(c, b, offset) == Prepend(seen.lines, ScanLog(c, b, seen.valid))
  {
    IncrementalScan(c, p, b, offset);
  }
}
