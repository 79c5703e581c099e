/** Line framing of a chunked text, as in the read loop of packages/agent/src/proxy.ts: the
    unterminated tail is kept back until more text arrives. */
module LineFramer {

  /** Splitting at newlines: always at least one piece, the last one unterminated. */
  function Split(s: string): (pieces: seq<string>)
    ensures |pieces| > 0
  {
    if s == "" then [""]
    else
      var pieces := Split(s[..|s| - 1]);
      var c := s[|s| - 1];
      if c == '\n' then pieces + [""] else pieces[|pieces| - 1 := pieces[|pieces| - 1] + [c]]
  }

  /** The newline-terminated lines of a text. */
  function Lines(s: string): seq<string> {
    Split(s)[..|Split(s)| - 1]
  }

  /** What follows the last newline. */
  function Tail(s: string): string {
    Split(s)[|Split(s)| - 1]
  }

  /** Lines put back together, each with its newline, and then the tail. */
  function Join(lines: seq<string>, tail: string): string {
    if lines == [] then tail else lines[0] + "\n" + Join(lines[1..], tail)
  }

  function Concat(chunks: seq<string>): string {
    if chunks == [] then "" else Concat(chunks[..|chunks| - 1]) + chunks[|chunks| - 1]
  }

  predicate OneLine(s: string) {
    '\n' !in s
  }

  lemma {:induction false} JoinAppend(lines: seq<string>, tail: string, more: string)
    ensures Join(lines, tail + more) == Join(lines, tail) + more
  {
    if lines != [] {
      JoinAppend(lines[1..], tail, more);
      assert lines[0] + "\n" + (Join(lines[1..], tail) + more) == lines[0] + "\n" + Join(lines[1..], tail) + more;
    }
  }

  lemma {:induction false} JoinClose(lines: seq<string>, tail: string)
    ensures Join(lines + [tail], "") == Join(lines, tail) + "\n"
  {
    if lines == [] {
      assert [tail][1..] == [];
      assert Join([tail], "") == tail + "\n" + "";
    } else {
      JoinClose(lines[1..], tail);
      assert (lines + [tail])[1..] == lines[1..] + [tail];
      assert lines[0] + "\n" + (Join(lines[1..], tail) + "\n") == lines[0] + "\n" + Join(lines[1..], tail) + "\n";
    }
  }

  /** Splitting loses nothing, and no line or tail holds a newline. */
  lemma {:induction false} SplitIsInverse(s: string)
    ensures Join(Lines(s), Tail(s)) == s
    ensures OneLine(Tail(s)) && forall line :: line in Lines(s) ==> OneLine(line)
  {
    if s != "" {
      var init, c := s[..|s| - 1], s[|s| - 1];
      SplitIsInverse(init);
      assert s == init + [c];
      if c == '\n' {
        assert Lines(s) == Lines(init) + [Tail(init)] && Tail(s) == "";
        JoinClose(Lines(init), Tail(init));
      } else {
        assert Lines(s) == Lines(init) && Tail(s) == Tail(init) + [c];
        JoinAppend(Lines(init), Tail(init), [c]);
      }
    }
  }

  lemma {:induction false} SplitOneLine(t: string)
    requires OneLine(t)
    ensures Split(t) == [t]
  {
    if t != "" {
      SplitOneLine(t[..|t| - 1]);
      assert t[..|t| - 1] + [t[|t| - 1]] == t;
    }
  }

  lemma SplitTerminated(line: string)
    requires OneLine(line)
    ensures Lines(line + "\n") == [line] && Tail(line + "\n") == ""
  {
    SplitOneLine(line);
    assert (line + "\n")[..|line + "\n"| - 1] == line;
  }

  lemma LinesOfConcat(a: string, b: string)
    ensures Lines(a + b) == Lines(a) + Lines(Tail(a) + b) && Tail(a + b) == Tail(Tail(a) + b)
  {
    SplitConcat(a, b);
  }

  lemma SplitNext(s: string, c: char)
    ensures Split(s + [c]) ==
            if c == '\n' then Split(s) + [""] else Split(s)[|Split(s)| - 1 := Split(s)[|Split(s)| - 1] + [c]]
  {
    assert (s + [c])[..|s|] == s;
  }

  lemma SplitAtTail(a: string)
    ensures Split(a) == Lines(a) + Split(Tail(a))
  {
    SplitIsInverse(a);
    SplitOneLine(Tail(a));
  }

  /** Framing is compositional: what b adds depends on a only through its tail. */
  lemma {:induction false} SplitConcat(a: string, b: string)
    ensures Split(a + b) == Lines(a) + Split(Tail(a) + b)
    decreases |b|
  {
    hide Split, Lines, Tail;
    if b == "" {
      assert a + b == a && Tail(a) + b == Tail(a);
      SplitAtTail(a);
    } else {
      var init, c := b[..|b| - 1], b[|b| - 1];
      SplitConcat(a, init);
      assert a + b == a + init + [c] && Tail(a) + b == Tail(a) + init + [c];
      SplitNext(a + init, c);
      SplitNext(Tail(a) + init, c);
      ExtendLast(Lines(a), Split(Tail(a) + init), c);
    }
  }

  lemma ExtendLast(front: seq<string>, back: seq<string>, c: char)
    requires back != []
    ensures front + (back + [""]) == front + back + [""]
    ensures front + back[|back| - 1 := back[|back| - 1] + [c]]
            == (front + back)[|front + back| - 1 := (front + back)[|front + back| - 1] + [c]]
  {
  }

  /** Splitting undoes joining: the lines of a text are the only newline-free lines it can
      be joined from. */
  lemma {:induction false} JoinIsInverse(lines: seq<string>, tail: string)
    requires OneLine(tail) && forall line :: line in lines ==> OneLine(line)
    ensures Lines(Join(lines, tail)) == lines && Tail(Join(lines, tail)) == tail
  {
    if lines == [] {
      SplitOneLine(tail);
    } else {
      hide Lines, Tail, Split;
      JoinIsInverse(lines[1..], tail);
      var first, rest := lines[0] + "\n", Join(lines[1..], tail);
      SplitTerminated(lines[0]);
      LinesOfConcat(first, rest);
      assert "" + rest == rest;
    }
  }

  datatype Framed = Framed(lines: seq<string>, buffer: string)

  /** The incremental form: each chunk is appended to the buffer, the buffer is split, and
      its last piece is kept back. */
  function Frame(chunks: seq<string>): Framed {
    if chunks == [] then Framed([], "")
    else
      var before := Frame(chunks[..|chunks| - 1]);
      var text := before.buffer + chunks[|chunks| - 1];
      Framed(before.lines + Lines(text), Tail(text))
  }

  /** Incremental framing is framing of the whole text: the lines handled are exactly the
      newline-terminated lines of the concatenation, the unterminated tail stays behind. */
  lemma {:induction false} FrameIsWhole(chunks: seq<string>)
    ensures Frame(chunks) == Framed(Lines(Concat(chunks)), Tail(Concat(chunks)))
  {
    if chunks != [] {
      hide Lines, Tail;
      FrameIsWhole(chunks[..|chunks| - 1]);
      LinesOfConcat(Concat(chunks[..|chunks| - 1]), chunks[|chunks| - 1]);
    }
  }

  /** Chunking invariance: two ways of cutting the same text give the same lines. */
  lemma ChunkingInvariance(chunks: seq<string>, other: seq<string>)
    requires Concat(chunks) == Concat(other)
    ensures Frame(chunks) == Frame(other)
  {
    FrameIsWhole(chunks);
    FrameIsWhole(other);
  }

  /** Lines handled early are lines of the whole text, in place. */
  lemma {:induction false} LinesStay(chunks: seq<string>, k: nat)
    requires k <= |chunks|
    ensures Frame(chunks[..k]).lines <= Frame(chunks).lines
    decreases |chunks|
  {
    if k < |chunks| {
      hide Lines, Tail;
      LinesStay(chunks[..|chunks| - 1], k);
      assert chunks[..|chunks| - 1][..k] == chunks[..k];
    } else {
      assert chunks[..k] == chunks;
    }
  }
}
