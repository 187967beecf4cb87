/** The byte collector with its geometric slab, and the NDJSON splitter. */
module BoundedBytes {
  import opened Wrappers

  type Byte = b: int | 0 <= b < 256 witness 0

  datatype CollectError = ChunkLimit | InvalidChunk | ByteLimit

  /** What a stream may yield: a byte view, or something else. */
  datatype Chunk = View(bytes: seq<Byte>) | NotBytes

  const MAX_CHUNKS: nat := 16_384
  const MAX_SCALED_CHUNKS: nat := 131_072
  const MIN_EXPECTED_CHUNK: nat := 1_024

  function Min(a: nat, b: nat): nat { if a < b then a else b }
  function Max(a: nat, b: nat): nat { if a < b then b else a }

  function MaximumChunks(maxBytes: nat): nat {
    Min(MAX_SCALED_CHUNKS, Max(MAX_CHUNKS, (maxBytes + MIN_EXPECTED_CHUNK - 1) / MIN_EXPECTED_CHUNK))
  }

  // ----- the collector

  class Collector {
    const maxBytes: nat
    var collected: array<Byte>
    var totalBytes: nat
    var chunksAccepted: nat
    /** Bytes copied again by growing the slab. */
    ghost var recopied: nat

    /** Room: what is used fits, and recopying is paid for by the doubling. */
    ghost predicate Valid()
      reads this
    {
      && totalBytes <= collected.Length <= maxBytes
      && (recopied <= collected.Length || (collected.Length == maxBytes && recopied < 2 * maxBytes))
    }

    ghost function Contents(): seq<Byte>
      requires Valid()
      reads this, collected
    {
      collected[..totalBytes]
    }

    constructor (limit: nat)
      ensures Valid() && maxBytes == limit && fresh(collected)
      ensures Contents() == [] && chunksAccepted == 0 && totalBytes == 0
    {
      maxBytes := limit;
      collected := new Byte[0];
      totalBytes, chunksAccepted, recopied := 0, 0, 0;
    }

    /** ensureCapacity: at least doubling, never beyond the limit. */
    method EnsureCapacity(required: nat)
      requires Valid() && totalBytes <= required <= maxBytes
      modifies this`collected, this`recopied
      ensures Valid() && required <= collected.Length
      ensures Contents() == old(Contents())
      ensures collected == old(collected) || fresh(collected)
      ensures collected == old(collected) || collected.Length == maxBytes || collected.Length >= 2 * old(collected.Length)
    {
      if required <= collected.Length { return; }
      var capacity := if collected.Length == 0 then Min(maxBytes, Max(required, 1_024)) else collected.Length;
      while capacity < required
        invariant capacity <= maxBytes
        invariant capacity == collected.Length || capacity >= required
        invariant capacity >= required ==> capacity == maxBytes || capacity >= 2 * collected.Length
        decreases maxBytes - capacity
      {
        capacity := Min(maxBytes, Max(required, capacity * 2));
      }
      var expanded := new Byte[capacity](_ => 0);
      forall i | 0 <= i < totalBytes { expanded[i] := collected[i]; }
      recopied := recopied + totalBytes;
      collected := expanded;
    }

    /** acceptChunk */
    method AcceptChunk(candidate: Chunk) returns (r: Result<(), CollectError>)
      requires Valid()
      modifies this`collected, this`recopied, this`totalBytes, this`chunksAccepted, collected
      ensures Valid() && (collected == old(collected) || fresh(collected))
      ensures r == if old(chunksAccepted) >= MaximumChunks(maxBytes) then Err(ChunkLimit)
                   else if candidate.NotBytes? || candidate.bytes == [] then Err(InvalidChunk)
                   else if old(totalBytes) + |candidate.bytes| > maxBytes then Err(ByteLimit) else Ok(())
      ensures r.Ok? ==> Contents() == old(Contents()) + candidate.bytes && chunksAccepted == old(chunksAccepted) + 1
      ensures r.Err? ==> Contents() == old(Contents()) && chunksAccepted == old(chunksAccepted)
    {
      if chunksAccepted >= MaximumChunks(maxBytes) { return Err(ChunkLimit); }
      if candidate.NotBytes? || |candidate.bytes| == 0 { return Err(InvalidChunk); }
      var bytes := candidate.bytes;
      if |bytes| > maxBytes - totalBytes { return Err(ByteLimit); }
      ghost var before := Contents();
      EnsureCapacity(totalBytes + |bytes|);
      assert collected[..totalBytes] == before;
      forall i | totalBytes <= i < totalBytes + |bytes| { collected[i] := bytes[i - totalBytes]; }
      assert collected[..totalBytes] == before;
      assert collected[..totalBytes + |bytes|] == before + bytes;
      totalBytes := totalBytes + |bytes|;
      chunksAccepted := chunksAccepted + 1;
      return Ok(());
    }
  }

  /** The chunks' bytes in order. */
  function Concat(chunks: seq<Chunk>): seq<Byte> {
    if chunks == [] then []
    else Concat(chunks[..|chunks| - 1]) + (var c := chunks[|chunks| - 1]; if c.View? then c.bytes else [])
  }

  /** What a stream must satisfy to be collected. */
  predicate Collectable(chunks: seq<Chunk>, maxBytes: nat) {
    && |chunks| <= MaximumChunks(maxBytes) && |Concat(chunks)| <= maxBytes
    && forall i :: 0 <= i < |chunks| ==> chunks[i].View? && chunks[i].bytes != []
  }

  lemma {:induction false} ConcatGrows(chunks: seq<Chunk>, i: nat)
    requires i <= |chunks|
    ensures |Concat(chunks[..i])| <= |Concat(chunks)|
    decreases |chunks| - i
  {
    if i == |chunks| {
      assert chunks[..i] == chunks;
    } else {
      assert chunks[..i + 1][..i] == chunks[..i];
      ConcatGrows(chunks, i + 1);
    }
  }

  /** collectBoundedBytes: accepted exactly within the limits, and then the bytes do not depend on the chunking. */
  method CollectBoundedBytes(chunks: seq<Chunk>, maxBytes: nat) returns (r: Result<seq<Byte>, CollectError>)
    ensures r.Ok? <==> Collectable(chunks, maxBytes)
    ensures r.Ok? ==> r.value == Concat(chunks)
  {
    var collector := new Collector(maxBytes);
    for i := 0 to |chunks|
      invariant fresh(collector) && fresh(collector.collected) && collector.Valid() && collector.maxBytes == maxBytes
      invariant collector.Contents() == Concat(chunks[..i]) && collector.chunksAccepted == i
      invariant Collectable(chunks[..i], maxBytes)
    {
      assert chunks[..i + 1][..i] == chunks[..i];
      ConcatGrows(chunks, i + 1);
      var accepted := collector.AcceptChunk(chunks[i]);
      if accepted.Err? { return Err(accepted.error); }
    }
    assert chunks[..|chunks|] == chunks;
    return Ok(collector.collected[..collector.totalBytes]);
  }

  // ----- NDJSON

  const LF: Byte := 0x0a
  const CR: Byte := 0x0d

  datatype LineError = LineLimit | BlankLine | ItemLimit | BadRecord
  datatype LineLimits = LineLimits(maxLineBytes: nat, maxItems: nat)

  predicate NoLf(s: seq<Byte>) { LF !in s }

  function StripCr(s: seq<Byte>): seq<Byte> {
    if s != [] && s[|s| - 1] == CR then s[..|s| - 1] else s
  }

  /** The end of the line that starts at i: the next LF, or the end of input. */
  function LineEnd(s: seq<Byte>, i: nat): (j: nat)
    requires i <= |s|
    ensures i <= j <= |s| && NoLf(s[i..j]) && (j < |s| ==> s[j] == LF)
    decreases |s| - i
  {
    if i == |s| then i
    else if s[i] == LF then i
    else
      var j := LineEnd(s, i + 1);
      assert s[i..j] == [s[i]] + s[i + 1..j];
      j
  }

  /** Records from position i: a CR is dropped only before an LF, and a final terminator adds no record. */
  function Lines(s: seq<Byte>, i: nat): seq<seq<Byte>>
    requires i <= |s|
    decreases |s| - i
  {
    if i == |s| then []
    else
      var j := LineEnd(s, i);
      if j == |s| then [s[i..j]] else [StripCr(s[i..j])] + Lines(s, j + 1)
  }

  predicate Blank(s: seq<Byte>) { forall i :: 0 <= i < |s| ==> s[i] == 0x20 || s[i] == 0x09 || s[i] == CR }

  /** The first thing wrong with record number k. */
  function LineFault<V>(l: LineLimits, parse: seq<Byte> -> Option<V>, line: seq<Byte>, k: nat): Option<LineError> {
    if |line| > l.maxLineBytes then Some(LineLimit)
    else if Blank(line) then Some(BlankLine)
    else if k >= l.maxItems then Some(ItemLimit)
    else if parse(line).None? then Some(BadRecord)
    else None
  }

  /** Records parsed in turn, numbered from k; the first fault carries its line number. */
  function ParseLines<V>(l: LineLimits, parse: seq<Byte> -> Option<V>, lines: seq<seq<Byte>>, k: nat): Result<seq<V>, (LineError, nat)> {
    if lines == [] then Ok([])
    else
      var fault := LineFault(l, parse, lines[0], k);
      if fault.Some? then Err((fault.value, k + 1))
      else
        var rest :- ParseLines(l, parse, lines[1..], k + 1);
        Ok([parse(lines[0]).value] + rest)
  }

  function Pushed<V>(items: seq<V>, r: Result<seq<V>, (LineError, nat)>): Result<seq<V>, (LineError, nat)> {
    if r.Err? then r else Ok(items + r.value)
  }

  lemma PushStep<V>(l: LineLimits, parse: seq<Byte> -> Option<V>, items: seq<V>, line: seq<Byte>, rest: seq<seq<Byte>>, k: nat)
    ensures var fault := LineFault(l, parse, line, k);
            Pushed(items, ParseLines(l, parse, [line] + rest, k))
            == if fault.Some? then Err((fault.value, k + 1)) else Pushed(items + [parse(line).value], ParseLines(l, parse, rest, k + 1))
  {
    assert ([line] + rest)[1..] == rest;
    var r := ParseLines(l, parse, rest, k + 1);
    if LineFault(l, parse, line, k).None? && r.Ok? {
      assert items + ([parse(line).value] + r.value) == items + [parse(line).value] + r.value;
    }
  }

  lemma PushNothing<V>(r: Result<seq<V>, (LineError, nat)>)
    ensures Pushed([], r) == r
  {
    if r.Ok? { assert [] + r.value == r.value; }
  }

  lemma {:induction false} EndAhead(s: seq<Byte>, i: nat, j: nat)
    requires i <= j <= |s| && NoLf(s[i..j]) && (j < |s| ==> s[j] == LF)
    ensures LineEnd(s, i) == j
    decreases j - i
  {
    if i < j {
      assert s[i] == s[i..j][0];
      assert s[i + 1..j] == s[i..j][1..];
      EndAhead(s, i + 1, j);
    }
  }

  /** The record that ends at the cursor, and the records after it. */
  lemma NextRecord(s: seq<Byte>, i: nat, cursor: nat)
    requires i <= cursor <= |s| && i < |s| && NoLf(s[i..cursor]) && (cursor < |s| ==> s[cursor] == LF)
    ensures Lines(s, i) == if cursor == |s| then [s[i..cursor]] else [StripCr(s[i..cursor])] + Lines(s, cursor + 1)
  {
    EndAhead(s, i, cursor);
  }

  lemma StripAt(s: seq<Byte>, i: nat, cursor: nat)
    requires i <= cursor <= |s|
    ensures StripCr(s[i..cursor]) == s[i..if cursor > i && s[cursor - 1] == CR then cursor - 1 else cursor]
  {
  }

  lemma NoLines(s: seq<Byte>)
    ensures Lines(s, |s|) == []
  {
  }

  lemma NothingParsed<V>(l: LineLimits, parse: seq<Byte> -> Option<V>)
    ensures forall k :: ParseLines(l, parse, [], k) == Ok([])
  {
  }

  /** Record number k: length, blankness, item budget, then the parse. */
  method ReadRecord<V>(l: LineLimits, parse: seq<Byte> -> Option<V>, record: seq<Byte>, k: nat) returns (r: Result<V, LineError>)
    ensures match LineFault(l, parse, record, k) case Some(fault) => r == Err(fault) case None => Some(parse(record).value) == parse(record) && r == Ok(parse(record).value)
  {
    if |record| > l.maxLineBytes { return Err(LineLimit); }
    if Blank(record) { return Err(BlankLine); }
    if k >= l.maxItems { return Err(ItemLimit); }
    var value := parse(record);
    if value.None? { return Err(BadRecord); }
    return Ok(value.value);
  }

  /** No LF between the line start and the cursor, and the items so far lead to the whole result. */
  ghost predicate Progress<V>(l: LineLimits, parse: seq<Byte> -> Option<V>, input: seq<Byte>, start: nat, cursor: nat, items: seq<V>) {
    && start <= cursor <= |input| && NoLf(input[start..cursor])
    && Pushed(items, ParseLines(l, parse, Lines(input, start), |items|)) == ParseLines(l, parse, Lines(input, 0), 0)
  }

  lemma ProgressStart<V>(l: LineLimits, parse: seq<Byte> -> Option<V>, input: seq<Byte>)
    ensures Progress(l, parse, input, 0, 0, [])
  {
    PushNothing(ParseLines(l, parse, Lines(input, 0), 0));
  }

  lemma ProgressSkip<V>(l: LineLimits, parse: seq<Byte> -> Option<V>, input: seq<Byte>, start: nat, cursor: nat, items: seq<V>)
    requires Progress(l, parse, input, start, cursor, items) && cursor < |input| && input[cursor] != LF
    ensures Progress(l, parse, input, start, cursor + 1, items)
  {
    hide Lines, ParseLines;
    assert input[start..cursor + 1] == input[start..cursor] + [input[cursor]];
  }

  /** The record that ends at the cursor decides: its fault is the result, or it is one more item. */
  lemma ProgressRecord<V>(l: LineLimits, parse: seq<Byte> -> Option<V>, input: seq<Byte>, start: nat, cursor: nat, items: seq<V>, record: seq<Byte>)
    requires Progress(l, parse, input, start, cursor, items) && start < |input| && (cursor < |input| ==> input[cursor] == LF)
    requires record == if cursor == |input| then input[start..cursor] else StripCr(input[start..cursor])
    ensures var fault, whole := LineFault(l, parse, record, |items|), ParseLines(l, parse, Lines(input, 0), 0);
            if fault.Some? then whole == Err((fault.value, |items| + 1))
            else if cursor == |input| then whole == Ok(items + [parse(record).value])
            else Progress(l, parse, input, cursor + 1, cursor + 1, items + [parse(record).value])
  {
    hide Lines, ParseLines, StripCr, LineFault;
    NextRecord(input, start, cursor);
    var rest := if cursor == |input| then [] else Lines(input, cursor + 1);
    assert Lines(input, start) == [record] + rest;
    PushStep(l, parse, items, record, rest, |items|);
    FaultFree(l, parse, record, |items|);
    if LineFault(l, parse, record, |items|).None? {
      var more := items + [parse(record).value];
      if cursor == |input| {
        NothingParsed(l, parse);
        assert more + [] == more;
      } else {
        assert input[cursor + 1..cursor + 1] == [];
      }
    }
  }

  lemma ProgressEnd<V>(l: LineLimits, parse: seq<Byte> -> Option<V>, input: seq<Byte>, items: seq<V>)
    requires Progress(l, parse, input, |input|, |input|, items)
    ensures ParseLines(l, parse, Lines(input, 0), 0) == Ok(items)
  {
    NoLines(input);
    NothingParsed(l, parse);
    assert items + [] == items;
  }

  /** parseBoundedNdjson: one pass of the cursor, a record at every LF and at the end. */
  method ParseBoundedNdjson<V>(input: seq<Byte>, l: LineLimits, parse: seq<Byte> -> Option<V>)
      returns (r: Result<seq<V>, (LineError, nat)>)
    ensures r == ParseLines(l, parse, Lines(input, 0), 0)
  {
    if |input| == 0 { return Ok([]); }
    var items: seq<V> := [];
    var lineStart, cursor := 0, 0;
    ProgressStart(l, parse, input);
    ProgressBounds(l, parse, input, 0, 0, items);
    hide Lines, ParseLines, StripCr, LineFault, Progress;
    while true
      invariant 0 <= lineStart <= cursor <= |input| && Progress(l, parse, input, lineStart, cursor, items)
      decreases |input| - cursor
    {
      var atEnd := cursor == |input|;
      if !atEnd && input[cursor] != LF {
        ProgressSkip(l, parse, input, lineStart, cursor, items);
        cursor := cursor + 1;
        continue;
      }
      if atEnd && lineStart == |input| { break; }
      var lineEnd := cursor;
      if !atEnd && lineEnd > lineStart && input[lineEnd - 1] == CR { lineEnd := lineEnd - 1; }
      var record := input[lineStart..lineEnd];
      StripAt(input, lineStart, cursor);
      ProgressRecord(l, parse, input, lineStart, cursor, items, record);
      var value := ReadRecord(l, parse, record, |items|);
      if value.Err? { return Err((value.error, |items| + 1)); }
      items := items + [value.value];
      if atEnd { return Ok(items); }
      lineStart, cursor := cursor + 1, cursor + 1;
    }
    ProgressEnd(l, parse, input, items);
    return Ok(items);
  }

  lemma ProgressBounds<V>(l: LineLimits, parse: seq<Byte> -> Option<V>, input: seq<Byte>, start: nat, cursor: nat, items: seq<V>)
    requires Progress(l, parse, input, start, cursor, items)
    ensures start <= cursor <= |input|
  {
  }

  // ----- round trip

  /** A record that survives any terminator: some bytes, no LF, no trailing CR. */
  predicate Transportable(s: seq<Byte>) { s != [] && NoLf(s) && s[|s| - 1] != CR }

  function Terminator(crlf: bool): seq<Byte> { if crlf then [CR, LF] else [LF] }

  /** Records with their terminators; the last one's is optional. */
  function Joined(records: seq<seq<Byte>>, crlf: seq<bool>, final: bool): seq<Byte>
    requires |crlf| == |records|
  {
    if records == [] then []
    else if |records| == 1 && !final then records[0]
    else records[0] + Terminator(crlf[0]) + Joined(records[1..], crlf[1..], final)
  }

  lemma SliceShift(p: seq<Byte>, s: seq<Byte>, i: nat, j: nat)
    requires i <= j <= |s|
    ensures (p + s)[|p| + i..|p| + j] == s[i..j] && (j < |s| ==> (p + s)[|p| + j] == s[j])
  {
  }

  lemma {:induction false} LinesShift(p: seq<Byte>, s: seq<Byte>, i: nat)
    requires i <= |s|
    ensures Lines(p + s, |p| + i) == Lines(s, i)
    decreases |s| - i
  {
    hide Lines, LineEnd, StripCr;
    if i == |s| {
      NoLines(s);
      NoLines(p + s);
    } else {
      var j := LineEnd(s, i);
      SliceShift(p, s, i, j);
      if j < |s| { LinesShift(p, s, j + 1); }
      NextRecord(s, i, j);
      NextRecord(p + s, |p| + i, |p| + j);
    }
  }

  lemma HeadLine(record: seq<Byte>, crlf: bool, rest: seq<Byte>)
    requires Transportable(record)
    ensures Lines(record + Terminator(crlf) + rest, 0) == [record] + Lines(rest, 0)
  {
    var head := record + Terminator(crlf);
    var s := head + rest;
    var j := |head| - 1;
    assert s[j] == LF && s[0..j] == if crlf then record + [CR] else record;
    EndAhead(s, 0, j);
    assert StripCr(s[0..j]) == record;
    LinesShift(head, rest, 0);
  }

  /** Records joined by LF or CRLF, finally terminated or not, split back into the same records. */
  lemma {:induction false} LinesOfJoined(records: seq<seq<Byte>>, crlf: seq<bool>, final: bool)
    requires |crlf| == |records| && forall i :: 0 <= i < |records| ==> Transportable(records[i])
    ensures Lines(Joined(records, crlf, final), 0) == records
    decreases |records|
  {
    if records != [] {
      var record := records[0];
      if |records| == 1 && !final {
        EndAhead(record, 0, |record|);
        assert record[0..|record|] == record && records == [record];
      } else {
        var rest := Joined(records[1..], crlf[1..], final);
        LinesOfJoined(records[1..], crlf[1..], final);
        HeadLine(record, crlf[0], rest);
        assert records == [record] + records[1..];
      }
    }
  }

  /** All records are parsed exactly when each is within the limits, not blank, and parses on its own. */
  lemma {:induction false} PerRecord<V>(l: LineLimits, parse: seq<Byte> -> Option<V>, lines: seq<seq<Byte>>, k: nat)
    ensures var r := ParseLines(l, parse, lines, k);
            && (r.Ok? <==> forall i :: 0 <= i < |lines| ==> LineFault(l, parse, lines[i], k + i).None?)
            && (r.Ok? ==> |r.value| == |lines| && forall i :: 0 <= i < |lines| ==> Some(r.value[i]) == parse(lines[i]))
    decreases |lines|
  {
    hide LineFault;
    if lines != [] {
      PerRecord(l, parse, lines[1..], k + 1);
      FaultFree(l, parse, lines[0], k);
      assert forall i :: 1 <= i < |lines| ==> lines[i] == lines[1..][i - 1] && k + i == k + 1 + (i - 1);
      assert forall i :: 0 <= i < |lines[1..]| ==> lines[1..][i] == lines[i + 1] && k + 1 + i == k + (i + 1);
    }
  }

  lemma FaultFree<V>(l: LineLimits, parse: seq<Byte> -> Option<V>, line: seq<Byte>, k: nat)
    ensures LineFault(l, parse, line, k).None? ==> parse(line).Some?
  {
  }
}
