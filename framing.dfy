/**
 * The socket's `data` handler: text arrives in chunks; a chunk that ends in
 * a newline releases the pending buffer and the chunk, split into lines,
 * each non-empty line parsed and handled in turn; any other chunk is kept
 * in the buffer, unless the buffer has already grown past its limit, in
 * which case the buffer and the chunk are dropped.
 */
module Framing {
  import opened Wrappers
  import opened Numbers
  import opened Json
  import opened Protocol
  import opened Strings
  import opened Registry
  import Routing

  /** The default `maxBufferSize`, one mebibyte. */
  const DEFAULT_MAX_BUFFER_SIZE := 1048576.0

  /**
   * What the handler works with besides the platform state: the buffer
   * limit (`maxBufferSize || 1048576`, kept as configured), `JSON.parse`
   * (None where it throws) and the protocol names.
   */
  datatype Settings = Settings(maxBufferSize: Value, parse: string -> Option<Value>, keys: Keys)

  /** `co.maxBufferSize || 1048576`. */
  function MaxBufferSize(configured: Option<Value>): (v: Value)
    ensures Truthy(configured) ==> v == configured.value
    ensures !Truthy(configured) ==> v == Num(Finite(DEFAULT_MAX_BUFFER_SIZE))
  {
    if Truthy(configured) then configured.value else Num(Finite(DEFAULT_MAX_BUFFER_SIZE))
  }

  /** `this.buffer.length > this.maxBufferSize`: the limit is converted to a number, and nothing exceeds NaN. */
  predicate Exceeds(length: nat, limit: Value) {
    var n := ToNumber(Some(limit));
    n.Finite? && length as real > n.r
  }

  /** The chunk's last character is a newline. */
  predicate EndsLine(chunk: string) {
    |chunk| > 0 && chunk[|chunk| - 1] == '\n'
  }

  /**
   * One line: an empty line is skipped; a line that does not parse is
   * skipped; otherwise it is handled, and a throw while handling it is
   * caught, keeping the effects made before the throw.
   */
  function HandleLine(st: State, line: string, s: Settings): State {
    if line == "" then st
    else
      match s.parse(line)
      case None => st
      case Some(response) => Routing.HandleUpdate(st, response, s.keys).st
  }

  /** The lines in order. */
  function HandleLines(st: State, lines: seq<string>, s: Settings): State
    decreases |lines|
  {
    if lines == [] then st else HandleLines(HandleLine(st, lines[0], s), lines[1..], s)
  }

  /** The buffer and the platform state after one chunk. */
  datatype Received = Received(buffer: string, st: State)

  /** The `data` handler. */
  function OnData(buffer: string, st: State, chunk: string, s: Settings): (r: Received)
    ensures EndsLine(chunk) ==> r == Received("", HandleLines(st, Split(buffer + chunk, '\n'), s))
    ensures !EndsLine(chunk) ==> r.st == st
    ensures !EndsLine(chunk) && Exceeds(|buffer|, s.maxBufferSize) ==> r.buffer == ""
    ensures !EndsLine(chunk) && !Exceeds(|buffer|, s.maxBufferSize) ==> r.buffer == buffer + chunk
  {
    if EndsLine(chunk) then Received("", HandleLines(st, Split(buffer + chunk, '\n'), s))
    else if Exceeds(|buffer|, s.maxBufferSize) then Received("", st)
    else Received(buffer + chunk, st)
  }

  // ---------------------------------------------------------------------
  // Framing properties

  /** Handling two runs of lines one after the other is handling them together. */
  lemma {:induction false} HandleLinesAppend(st: State, a: seq<string>, b: seq<string>, s: Settings)
    ensures HandleLines(st, a + b, s) == HandleLines(HandleLines(st, a, s), b, s)
    decreases |a|
  {
    if a != [] {
      assert (a + b)[1..] == a[1..] + b;
      HandleLinesAppend(HandleLine(st, a[0], s), a[1..], b, s);
    } else {
      assert a + b == b;
    }
  }

  /** Empty lines are skipped: the lines handled are exactly the non-empty ones, in order. */
  lemma {:induction false} HandleLinesNonEmpty(st: State, lines: seq<string>, s: Settings)
    ensures HandleLines(st, lines, s) == HandleLines(st, NonEmpty(lines), s)
    decreases |lines|
  {
    if lines != [] {
      var init, last := lines[..|lines| - 1], lines[|lines| - 1];
      assert lines == init + [last];
      HandleLinesAppend(st, init, [last], s);
      HandleLinesNonEmpty(st, init, s);
      var mid := HandleLines(st, init, s);
      assert HandleLines(mid, [last], s) == HandleLine(mid, last, s) by {
        assert [last][1..] == [];
      }
      if last == "" {
        assert NonEmpty(lines) == NonEmpty(init);
      } else {
        assert NonEmpty(lines) == NonEmpty(init) + [last];
        HandleLinesAppend(st, NonEmpty(init), [last], s);
      }
    }
  }

  /** A line that does not parse is skipped and the following lines are still handled. */
  lemma SkipsUnparsable(st: State, line: string, rest: seq<string>, s: Settings)
    requires s.parse(line).None?
    ensures HandleLines(st, [line] + rest, s) == HandleLines(st, rest, s)
  {
    assert ([line] + rest)[1..] == rest;
  }

  /**
   * A chunk ending in a newline empties the buffer and handles the
   * non-empty newline-separated pieces of the buffer and the chunk, in
   * order.
   */
  lemma CompleteChunk(buffer: string, st: State, chunk: string, s: Settings)
    requires EndsLine(chunk)
    ensures OnData(buffer, st, chunk, s) == Received("", HandleLines(st, NonEmpty(Split(buffer + chunk, '\n')), s))
  {
    HandleLinesNonEmpty(st, Split(buffer + chunk, '\n'), s);
  }

  /**
   * Where a line ends does not matter to the pieces: text before a newline
   * and text after it are split separately, so the lines of `a` are handled
   * before the lines of `b`.
   */
  lemma LinesInOrder(st: State, a: string, b: string, s: Settings)
    ensures HandleLines(st, Split(a + "\n" + b, '\n'), s) == HandleLines(HandleLines(st, Split(a, '\n'), s), Split(b, '\n'), s)
  {
    assert a + "\n" + b == a + ['\n'] + b;
    SplitAround(a, '\n', b);
    HandleLinesAppend(st, Split(a, '\n'), Split(b, '\n'), s);
  }

  /**
   * A chunk that does not end a line, arriving while the buffer is within
   * its limit, is handled as if it had arrived together with the next
   * chunk.
   */
  lemma ChunkBoundaryInvisible(buffer: string, st: State, a: string, b: string, s: Settings)
    requires !EndsLine(a) && !Exceeds(|buffer|, s.maxBufferSize) && EndsLine(b)
    ensures var first := OnData(buffer, st, a, s);
      OnData(first.buffer, first.st, b, s) == OnData(buffer, st, a + b, s)
  {
    assert (a + b)[|a + b| - 1] == b[|b| - 1];
    assert buffer + a + b == buffer + (a + b);
  }

  /** A worked example: two responses in one chunk, the first failing to parse, the second handled. */
  lemma TwoLinesOneChunk(st: State, s: Settings)
    requires s.parse("x").None?
    ensures OnData("", st, "x\n{}\n", s) == Received("", HandleLine(st, "{}", s))
  {
    var lines := ["x", "{}", ""];
    SplitTwoLines();
    assert "" + "x\n{}\n" == "x\n{}\n";
    assert lines[1..] == ["{}", ""];
    assert lines[1..][1..] == [""];
  }

  lemma SplitTwoLines()
    ensures Split("x\n{}\n", '\n') == ["x", "{}", ""]
  {
    assert "x\n{}\n" == "x" + ['\n'] + ("{}" + ['\n'] + "");
    SplitAround("x", '\n', "{}" + ['\n'] + "");
    SplitAround("{}", '\n', "");
    SplitWithoutSeparator("x", '\n');
    SplitWithoutSeparator("{}", '\n');
    SplitWithoutSeparator("", '\n');
  }
}
