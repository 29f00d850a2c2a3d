/** The build log on the Mac: output that arrives in arbitrary pieces is kept as lines, each cut at a
    maximum length and redacted, of which the last ones stay. */
module LogLines {
  import opened Redaction

  type byte = b: int | 0 <= b < 256

  const NEWLINE: byte := 10
  const MAX_LINE := 4096
  const KEPT := 200

  // ---- what should come out ----

  /** The whole stream split at its newlines: one more piece than there are newlines. */
  function SplitLines(s: seq<byte>): seq<seq<byte>> {
    if s == [] then [[]]
    else if s[0] == NEWLINE then [[]] + SplitLines(s[1..])
    else var rest := SplitLines(s[1..]); if rest == [] then [s] else [[s[0]] + rest[0]] + rest[1..]
  }

  const CUT := " \U{2026}"

  /** A line as it is kept: cut at the maximum, and marked when that lost something. What becomes of
      control characters and of the encoding is decided by the given function. */
  function Kept(line: seq<byte>, clean: seq<byte> -> string): string {
    if |line| > MAX_LINE then Line(line[..MAX_LINE], true, clean) else Line(line, false, clean)
  }

  /** A line of which this much was kept. */
  function Line(kept: seq<byte>, truncated: bool, clean: seq<byte> -> string): string {
    if truncated then clean(kept) + CUT else clean(kept)
  }

  function KeptAll(lines: seq<seq<byte>>, clean: seq<byte> -> string): seq<string> {
    if lines == [] then [] else KeptAll(lines[..|lines| - 1], clean) + [Kept(lines[|lines| - 1], clean)]
  }

  /** The lines with every secret replaced, the mark of a cut one included. */
  function Redacted(lines: seq<string>, secrets: seq<Value>): seq<string> {
    if lines == [] then [] else Redacted(lines[..|lines| - 1], secrets) + [RedactAll(lines[|lines| - 1], secrets)]
  }

  /** Splitting the whole stream: a last piece without a newline is a line only if it has something in it. */
  function Batch(s: seq<byte>): seq<seq<byte>> {
    var pieces := SplitLines(s);
    if pieces != [] && pieces[|pieces| - 1] == [] then pieces[..|pieces| - 1] else pieces
  }

  function LastOf(lines: seq<string>, n: nat): seq<string> {
    if |lines| > n then lines[|lines| - n..] else lines
  }

  // ---- the same from the end of what has been seen so far ----

  /** The lines that are complete, and the beginning of the one that is not. */
  function Finished(s: seq<byte>): seq<seq<byte>> {
    if s == [] then []
    else var before := s[..|s| - 1]; if s[|s| - 1] == NEWLINE then Finished(before) + [Unfinished(before)] else Finished(before)
  }

  function Unfinished(s: seq<byte>): seq<byte> {
    if s == [] || s[|s| - 1] == NEWLINE then [] else Unfinished(s[..|s| - 1]) + [s[|s| - 1]]
  }

  lemma {:induction false} SplitFromTheEnd(s: seq<byte>)
    ensures SplitLines(s) == Finished(s) + [Unfinished(s)]
  {
    if s != [] {
      var before, c := s[..|s| - 1], s[|s| - 1];
      SplitFromTheEnd(before);
      assert s == before + [c];
      SplitOneMore(before, c);
    }
  }

  lemma {:induction false} SplitOneMore(s: seq<byte>, c: byte)
    ensures |SplitLines(s)| >= 1
    ensures var pieces := SplitLines(s);
      SplitLines(s + [c]) == if c == NEWLINE then pieces + [[]] else pieces[..|pieces| - 1] + [pieces[|pieces| - 1] + [c]]
  {
    if s == [] {
      assert s + [c] == [c] && [c][1..] == [];
      assert SplitLines([c][1..]) == [[]];
      assert SplitLines(s)[..0] == [] && [c] + [] == [c] && [] + [c] == [c];
    } else {
      SplitOneMore(s[1..], c);
      assert (s + [c])[1..] == s[1..] + [c];
      if s[0] == NEWLINE {
        assert SplitLines(s + [c]) == [[]] + SplitLines(s[1..] + [c]);
      } else {
        PrependedLater(s[0], c, SplitLines(s[1..]));
      }
    }
  }

  /** A byte in front of the first piece and one behind the last do not mind each other. */
  lemma PrependedLater(b: byte, c: byte, pieces: seq<seq<byte>>)
    requires |pieces| >= 1
    ensures var last := |pieces| - 1;
      var longer := if c == NEWLINE then pieces + [[]] else pieces[..last] + [pieces[last] + [c]];
      var front := [[b] + pieces[0]] + pieces[1..];
      [[b] + longer[0]] + longer[1..] == if c == NEWLINE then front + [[]] else front[..last] + [front[last] + [c]]
  {
    if |pieces| == 1 {
      assert [b] + (pieces[0] + [c]) == [b] + pieces[0] + [c];
    }
  }

  lemma {:induction false} BatchFromTheEnd(s: seq<byte>)
    ensures Batch(s) == Finished(s) + if Unfinished(s) == [] then [] else [Unfinished(s)]
  {
    SplitFromTheEnd(s);
    assert (Finished(s) + [Unfinished(s)])[..|Finished(s)|] == Finished(s);
  }

  predicate OneLine(p: seq<byte>) { forall i :: 0 <= i < |p| ==> p[i] != NEWLINE }

  lemma {:induction false} MoreOfTheLine(s: seq<byte>, p: seq<byte>)
    requires OneLine(p)
    ensures Finished(s + p) == Finished(s) && Unfinished(s + p) == Unfinished(s) + p
  {
    if p == [] {
      assert s + p == s;
    } else {
      var before := p[..|p| - 1];
      MoreOfTheLine(s, before);
      assert (s + p)[..|s + p| - 1] == s + before;
      assert before + [p[|p| - 1]] == p;
    }
  }

  lemma EndOfTheLine(s: seq<byte>)
    ensures Finished(s + [NEWLINE]) == Finished(s) + [Unfinished(s)] && Unfinished(s + [NEWLINE]) == []
  {
    assert (s + [NEWLINE])[..|s|] == s;
  }

  lemma KeptOneMore(lines: seq<seq<byte>>, line: seq<byte>, clean: seq<byte> -> string)
    ensures KeptAll(lines + [line], clean) == KeptAll(lines, clean) + [Kept(line, clean)]
  {
    assert (lines + [line])[..|lines|] == lines;
  }

  lemma KeptBatch(s: seq<byte>, clean: seq<byte> -> string)
    ensures KeptAll(Batch(s), clean) ==
      if Unfinished(s) == [] then KeptAll(Finished(s), clean) else KeptAll(Finished(s), clean) + [Kept(Unfinished(s), clean)]
  {
    BatchFromTheEnd(s);
    if Unfinished(s) == [] {
      assert Finished(s) + [] == Finished(s);
    } else {
      KeptOneMore(Finished(s), Unfinished(s), clean);
    }
  }

  lemma RedactedOneMore(lines: seq<string>, line: string, secrets: seq<Value>)
    ensures Redacted(lines + [line], secrets) == Redacted(lines, secrets) + [RedactAll(line, secrets)]
  {
    assert (lines + [line])[..|lines|] == lines;
  }

  // ---- no secret is in the log ----

  predicate Clean(line: string, secrets: seq<Value>) {
    && (forall v :: v in secrets && Markless(v) ==> !Contains(line, v))
    && (Guarded(secrets) ==> forall v :: v in secrets ==> !Contains(line, v))
  }

  lemma RedactedIsClean(line: string, secrets: seq<Value>)
    ensures Clean(RedactAll(line, secrets), secrets)
  {
    forall v | v in secrets && Markless(v) ensures !Contains(RedactAll(line, secrets), v) {
      NoSecretSurvives(line, secrets, v);
    }
    if Guarded(secrets) { GuardedSecretsAreGone(line, secrets); }
  }

  predicate AllClean(lines: seq<string>, secrets: seq<Value>) { forall i :: 0 <= i < |lines| ==> Clean(lines[i], secrets) }

  /** No line of a redacted log has a secret in it that the mark cannot complete, nor any that
      contains such a secret. */
  lemma {:induction false} RedactedLinesAreClean(lines: seq<string>, secrets: seq<Value>)
    ensures AllClean(Redacted(lines, secrets), secrets)
  {
    if lines != [] {
      RedactedLinesAreClean(lines[..|lines| - 1], secrets);
      RedactedIsClean(lines[|lines| - 1], secrets);
    }
  }

  lemma LastLinesAreClean(lines: seq<string>, secrets: seq<Value>, n: nat)
    ensures AllClean(LastOf(Redacted(lines, secrets), n), secrets)
  {
    RedactedLinesAreClean(lines, secrets);
  }

  // ---- the buffer and the writer ----

  class LogBuffer {
    const secrets: seq<Value>
    var lines: seq<string>
    /** Everything ever added, as it came. */
    ghost var added: seq<string>

    ghost predicate Valid()
      reads this
    {
      lines == LastOf(Redacted(added, secrets), KEPT)
    }

    constructor (secrets: seq<Value>)
      ensures Valid() && added == [] && this.secrets == secrets
    {
      this.secrets, lines, added := secrets, [], [];
    }

    method Add(line: string)
      requires Valid()
      modifies this
      ensures Valid() && added == old(added) + [line]
    {
      RedactedOneMore(added, line, secrets);
      var redacted := RedactLine(line, secrets);
      lines := lines + [redacted];
      added := added + [line];
      if |lines| > KEPT {
        lines := lines[|lines| - KEPT..];
      }
    }
  }

  class LineWriter {
    const buffer: LogBuffer
    const clean: seq<byte> -> string
    var pending: seq<byte>
    var truncated: bool
    /** The stream so far, and what the buffer had before it. */
    ghost var stream: seq<byte>
    ghost const before: seq<string>

    ghost predicate Valid()
      reads this, buffer
    {
      && buffer.Valid()
      && buffer.added == before + KeptAll(Finished(stream), clean)
      && Holds(pending, truncated, Unfinished(stream))
    }

    constructor (buffer: LogBuffer, clean: seq<byte> -> string)
      requires buffer.Valid()
      ensures Valid() && stream == [] && this.buffer == buffer && this.clean == clean && before == buffer.added
    {
      this.buffer, this.clean, pending, truncated := buffer, clean, [], false;
      stream, before := [], buffer.added;
    }

    method Flush()
      requires buffer.Valid()
      modifies this`pending, this`truncated, buffer
      ensures buffer.Valid() && pending == [] && !truncated
      ensures buffer.added == old(buffer.added) + [Line(old(pending), old(truncated), clean)]
    {
      var line := clean(pending);
      if truncated {
        line := line + CUT;
      }
      buffer.Add(line);
      pending, truncated := [], false;
    }

    /** More of the current line, as much of it as there is room for. */
    method Extend(chunk: seq<byte>)
      requires Valid() && OneLine(chunk)
      modifies this`pending, this`truncated, this`stream
      ensures Valid() && stream == old(stream) + chunk
    {
      MoreOfTheLine(stream, chunk);
      stream := stream + chunk;
      var room := MAX_LINE - |pending|;
      if |chunk| > room {
        if room > 0 {
          pending := pending + chunk[..room];
        }
        truncated := true;
      } else {
        pending := pending + chunk;
      }
    }

    method EndLine()
      requires Valid()
      modifies this`pending, this`truncated, this`stream, buffer
      ensures Valid() && stream == old(stream) + [NEWLINE]
    {
      KeptOneMore(Finished(stream), Unfinished(stream), clean);
      EndOfTheLine(stream);
      stream := stream + [NEWLINE];
      Flush();
    }

    /** Takes the next piece of the output, wherever it was cut. */
    method Write(p: seq<byte>)
      requires Valid()
      modifies this`pending, this`truncated, this`stream, buffer
      ensures Valid() && stream == old(stream) + p
    {
      var rest := p;
      while rest != []
        invariant Valid() && stream + rest == old(stream) + p
        decreases |rest|
      {
        rest := TakeChunk(rest);
      }
    }

    /** Up to the next newline, or all there is. */
    method TakeChunk(p: seq<byte>) returns (rest: seq<byte>)
      requires Valid() && p != []
      modifies this`pending, this`truncated, this`stream, buffer
      ensures Valid() && stream + rest == old(stream) + p && |rest| < |p|
    {
      var (chunk, after, newline) := CutLine(p);
      CutAtNewline(p);
      ghost var done := stream;
      Extend(chunk);
      if newline {
        EndLine();
      }
      Regroup(done, chunk, newline, after);
      rest := after;
    }

    /** Takes in what is left without a newline. */
    method Close()
      requires Valid()
      modifies this`pending, this`truncated, buffer
      ensures buffer.Valid() && buffer.added == before + KeptAll(Batch(stream), clean)
    {
      KeptBatch(stream, clean);
      if |pending| > 0 || truncated {
        Flush();
      }
    }
  }

  /** The writer's two fields hold an unfinished line: its beginning, and whether there was more. */
  predicate Holds(pending: seq<byte>, truncated: bool, line: seq<byte>) {
    pending == (if |line| > MAX_LINE then line[..MAX_LINE] else line) && truncated == (|line| > MAX_LINE)
  }

  /** bytes.Cut at the first newline. */
  function CutLine(p: seq<byte>): (seq<byte>, seq<byte>, bool) {
    if p == [] then ([], [], false)
    else if p[0] == NEWLINE then ([], p[1..], true)
    else var (chunk, rest, found) := CutLine(p[1..]); ([p[0]] + chunk, rest, found)
  }

  lemma {:induction false} CutAtNewline(p: seq<byte>)
    ensures var (chunk, rest, found) := CutLine(p);
      OneLine(chunk) && if found then p == chunk + [NEWLINE] + rest else p == chunk && rest == []
  {
    if p != [] && p[0] != NEWLINE {
      CutAtNewline(p[1..]);
      assert p == [p[0]] + p[1..];
    }
  }

  lemma Regroup(s: seq<byte>, chunk: seq<byte>, newline: bool, rest: seq<byte>)
    ensures if newline then s + chunk + [NEWLINE] + rest == s + (chunk + [NEWLINE] + rest) else s + chunk + [] == s + chunk
  {
  }

  function Concat(pieces: seq<seq<byte>>): seq<byte> {
    if pieces == [] then [] else Concat(pieces[..|pieces| - 1]) + pieces[|pieces| - 1]
  }

  lemma ConcatOneMore(pieces: seq<seq<byte>>, i: nat)
    requires i < |pieces|
    ensures Concat(pieces[..i + 1]) == Concat(pieces[..i]) + pieces[i]
  {
    assert pieces[..i + 1][..i] == pieces[..i];
  }

  /** Streaming is batching: whatever pieces the output comes in, the lines are those of the whole
      stream, the buffer holds exactly the last two hundred, redacted, and none of them has a secret
      in it that the redaction's mark cannot complete. */
  method WriteAll(pieces: seq<seq<byte>>, clean: seq<byte> -> string, secrets: seq<Value>) returns (lines: seq<string>)
    ensures lines == LastOf(Redacted(KeptAll(Batch(Concat(pieces)), clean), secrets), KEPT)
    ensures AllClean(lines, secrets)
  {
    var buffer := new LogBuffer(secrets);
    var w := new LineWriter(buffer, clean);
    for i := 0 to |pieces|
      invariant w.Valid() && w.stream == Concat(pieces[..i]) && w.buffer == buffer && w.clean == clean && w.before == []
      invariant fresh(w) && fresh(buffer)
    {
      ConcatOneMore(pieces, i);
      w.Write(pieces[i]);
    }
    assert pieces[..|pieces|] == pieces;
    w.Close();
    LastLinesAreClean(buffer.added, secrets, KEPT);
    assert buffer.added == KeptAll(Batch(Concat(pieces)), clean);
    lines := buffer.lines;
  }
}
