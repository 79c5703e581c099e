/** The transcript packer of scripts/session-transcripts.ts: an in-order greedy
    packing of rendered transcripts into files of bounded size. */
module Packer {

  const MAX_CHARS_PER_FILE := 100_000
  const SEPARATOR := "\n\n"

  /** The content of one output file holding ts, in order. */
  function Joined(ts: seq<string>): string {
    if ts == [] then ""
    else if |ts| == 1 then ts[0]
    else Joined(ts[..|ts| - 1]) + SEPARATOR + ts[|ts| - 1]
  }

  /** What every output file must satisfy: it holds at least one transcript, and it is
      within the limit unless it is a single oversize transcript. */
  ghost predicate ValidFile(ts: seq<string>) {
    ts != [] && (|Joined(ts)| <= MAX_CHARS_PER_FILE || |ts| == 1)
  }

  /** An in-order contiguous grouping of ts into |cuts| - 1 files: file i holds
      ts[cuts[i]..cuts[i + 1]]. */
  ghost predicate Cuts(ts: seq<string>, cuts: seq<nat>) {
    && |cuts| > 0 && cuts[0] == 0 && cuts[|cuts| - 1] == |ts|
    && Ascending(ts, cuts)
  }

  ghost predicate Ascending(ts: seq<string>, cuts: seq<nat>) {
    && (forall i :: 0 <= i < |cuts| ==> cuts[i] <= |ts|)
    && (forall i :: 0 <= i < |cuts| - 1 ==> cuts[i] < cuts[i + 1])
  }

  ghost predicate ValidGrouping(ts: seq<string>, cuts: seq<nat>) {
    Cuts(ts, cuts) && forall i :: 0 <= i < |cuts| - 1 ==> ValidFile(ts[cuts[i]..cuts[i + 1]])
  }

  /** No file could have taken the first transcript of the file after it. */
  ghost predicate Maximal(ts: seq<string>, cuts: seq<nat>)
    requires Ascending(ts, cuts)
  {
    forall i :: 0 <= i < |cuts| - 1 && cuts[i + 1] < |ts| ==> !ValidFile(ts[cuts[i]..cuts[i + 1] + 1])
  }

  /** A file's content falls apart into those of any front part and rest, with one empty line
      between; a transcript alone is its own content. */
  lemma {:induction false} JoinedSplits(ts: seq<string>, k: nat)
    requires 0 < k < |ts|
    ensures Joined(ts) == Joined(ts[..k]) + "\n\n" + Joined(ts[k..])
    ensures Joined([ts[0]]) == ts[0]
    decreases |ts|
  {
    var n := |ts| - 1;
    if k < n {
      JoinedSplits(ts[..n], k);
      assert ts[..n][..k] == ts[..k] && ts[..n][k..] == ts[k..][..n - k];
      assert ts[k..][n - k] == ts[n];
    } else {
      assert ts[k..] == [ts[n]];
    }
  }

  // ---------------------------------------------------------------- sizes

  lemma {:induction false} JoinedGrows(ts: seq<string>, us: seq<string>)
    ensures |Joined(ts + us)| >= |Joined(us)|
    ensures |Joined(ts + us)| >= |Joined(ts)|
    decreases |us|
  {
    if us == [] {
      assert ts + us == ts;
    } else if ts == [] {
      assert ts + us == us;
    } else {
      var init := us[..|us| - 1];
      assert (ts + us)[..|ts + us| - 1] == ts + init;
      JoinedGrows(ts, init);
    }
  }

  /** A slice of at least two transcripts of a valid file is itself a valid file. */
  lemma SubfileValid(ts: seq<string>, a: nat, b: nat, c: nat, d: nat)
    requires a <= b < c <= d <= |ts| && c - b >= 2
    requires ValidFile(ts[a..d])
    ensures ValidFile(ts[b..c])
  {
    assert ts[a..d] == ts[a..b] + ts[b..d];
    assert ts[b..d] == ts[b..c] + ts[c..d];
    JoinedGrows(ts[a..b], ts[b..d]);
    JoinedGrows(ts[b..c], ts[c..d]);
  }

  // ---------------------------------------------------------------- optimality

  /** One file: a valid file that starts no later than a closed one ends no later. */
  lemma EndsNoLater(ts: seq<string>, from: nat, to: nat, otherFrom: nat, otherTo: nat)
    requires otherFrom <= from < to <= |ts| && otherFrom <= otherTo <= |ts|
    requires to < |ts| ==> !ValidFile(ts[from..to + 1])
    requires ValidFile(ts[otherFrom..otherTo])
    ensures otherTo <= to
  {
    if to < otherTo {
      SubfileValid(ts, otherFrom, from, to + 1, otherTo);
    }
  }

  /** Greedy stays ahead: after the same number of files, no other valid grouping
      has placed more transcripts than a maximal one. */
  lemma {:induction false} StaysAhead(ts: seq<string>, greedy: seq<nat>, other: seq<nat>, i: nat)
    requires ValidGrouping(ts, greedy) && Maximal(ts, greedy)
    requires ValidGrouping(ts, other)
    requires i < |greedy| && i < |other|
    ensures other[i] <= greedy[i]
  {
    hide ValidFile;
    if i > 0 {
      var k := i - 1;
      StaysAhead(ts, greedy, other, k);
      assert ValidFile(ts[other[k]..other[k + 1]]);
      assert greedy[k + 1] < |ts| ==> !ValidFile(ts[greedy[k]..greedy[k + 1] + 1]);
      EndsNoLater(ts, greedy[k], greedy[k + 1], other[k], other[k + 1]);
    }
  }

  /** Optimality: no valid in-order grouping uses fewer files than a maximal one. */
  lemma MaximalIsOptimal(ts: seq<string>, greedy: seq<nat>, other: seq<nat>)
    requires ValidGrouping(ts, greedy) && Maximal(ts, greedy)
    requires ValidGrouping(ts, other)
    ensures |greedy| <= |other|
  {
    if |other| < |greedy| {
      var last := |other| - 1;
      StaysAhead(ts, greedy, other, last);
      AscendingIsStrict(ts, greedy, last, |greedy| - 1);
    }
  }

  lemma {:induction false} AscendingIsStrict(ts: seq<string>, cuts: seq<nat>, i: nat, j: nat)
    requires Ascending(ts, cuts) && i < j < |cuts|
    ensures cuts[i] < cuts[j]
    decreases j
  {
    if i + 1 < j {
      AscendingIsStrict(ts, cuts, i, j - 1);
    }
  }

  // ---------------------------------------------------------------- the loop

  datatype OutputFile = OutputFile(index: int, content: string)

  /** The files hold exactly the groups of cuts, numbered from zero. */
  ghost predicate Written(ts: seq<string>, cuts: seq<nat>, files: seq<OutputFile>)
    requires Ascending(ts, cuts)
  {
    && |files| == |cuts| - 1
    && forall i :: 0 <= i < |files| ==>
         files[i] == OutputFile(i, Joined(ts[cuts[i]..cuts[i + 1]]))
  }

  /** A closed file is valid and could not have taken the next transcript. */
  ghost predicate Closed(ts: seq<string>, from: nat, to: nat)
    requires from <= to <= |ts|
  {
    ValidFile(ts[from..to]) && (to < |ts| ==> !ValidFile(ts[from..to + 1]))
  }

  /** The files written so far: all of ts[..cuts[|cuts| - 1]], each file closed. */
  ghost predicate Packed(ts: seq<string>, cuts: seq<nat>, files: seq<OutputFile>) {
    && |cuts| > 0 && cuts[0] == 0
    && Ascending(ts, cuts)
    && (forall i :: 0 <= i < |cuts| - 1 ==> Closed(ts, cuts[i], cuts[i + 1]))
    && Written(ts, cuts, files)
  }

  lemma NothingPacked(ts: seq<string>)
    ensures Packed(ts, [0], [])
    ensures forall n :: 0 <= n <= |ts| ==> Joined(ts[n..n]) == ""
  {
  }

  /** Writing ts[from..n] as the next file keeps the files packed. */
  lemma WriteKeeps(ts: seq<string>, cuts: seq<nat>, files: seq<OutputFile>, n: nat)
    requires Packed(ts, cuts, files)
    requires cuts[|cuts| - 1] < n <= |ts| && Closed(ts, cuts[|cuts| - 1], n)
    ensures Packed(ts, cuts + [n], files + [OutputFile(|files|, Joined(ts[cuts[|cuts| - 1]..n]))])
  {
    var cuts' := cuts + [n];
    forall i | 0 <= i < |cuts'| - 1
      ensures cuts'[i] < cuts'[i + 1] && Closed(ts, cuts'[i], cuts'[i + 1])
    {
      if i < |cuts| - 1 {
        assert Closed(ts, cuts[i], cuts[i + 1]);
      }
    }
  }

  /** The open group grows by one transcript. */
  lemma JoinedExtends(ts: seq<string>, from: nat, n: nat)
    requires from <= n < |ts|
    ensures Joined(ts[from..n + 1]) == (if from == n then ts[n] else Joined(ts[from..n]) + SEPARATOR + ts[n])
  {
    assert ts[from..n + 1][..n - from] == ts[from..n];
  }

  /** The files written are the files of an optimal valid grouping. */
  ghost predicate OptimalPacking(ts: seq<string>, cuts: seq<nat>, files: seq<OutputFile>) {
    && ValidGrouping(ts, cuts)
    && Written(ts, cuts, files)
    && forall other :: ValidGrouping(ts, other) ==> |cuts| <= |other|
  }

  lemma PackedAllIsOptimal(ts: seq<string>, cuts: seq<nat>, files: seq<OutputFile>)
    requires Packed(ts, cuts, files) && cuts[|cuts| - 1] == |ts|
    ensures OptimalPacking(ts, cuts, files)
  {
    assert forall i :: 0 <= i < |cuts| - 1 ==> Closed(ts, cuts[i], cuts[i + 1]);
    assert Maximal(ts, cuts);
    forall other | ValidGrouping(ts, other)
      ensures |cuts| <= |other|
    {
      MaximalIsOptimal(ts, cuts, other);
    }
  }

  /** A file holding an oversize transcript can take no other. */
  lemma OversizeIsAlone(ts: seq<string>, from: nat, n: nat)
    requires from < n < |ts|
    requires |ts[n]| > MAX_CHARS_PER_FILE || |Joined(ts[from..n])| > MAX_CHARS_PER_FILE
             || |Joined(ts[from..n])| + |ts[n]| + 2 > MAX_CHARS_PER_FILE
    ensures !ValidFile(ts[from..n + 1])
  {
    JoinedExtends(ts, from, n);
  }

  /** The packing loop of main. The transcripts are non-empty, as every rendered
      transcript carries its session header. */
  method PackTranscripts(allTranscripts: seq<string>) returns (outputFiles: seq<OutputFile>)
    requires forall i :: 0 <= i < |allTranscripts| ==> |allTranscripts[i]| > 0
    ensures exists cuts :: OptimalPacking(allTranscripts, cuts, outputFiles)
    ensures forall f :: f in outputFiles ==> |f.content| <= 100_000 || f.content in allTranscripts
  {
    hide Packed, Closed, OptimalPacking, Joined, ValidFile;
    outputFiles := [];
    var currentContent := "";
    var fileIndex := 0;
    ghost var cuts: seq<nat> := [0];
    NothingPacked(allTranscripts);
    for n := 0 to |allTranscripts|
      invariant fileIndex == |outputFiles|
      invariant forall f :: f in outputFiles ==> |f.content| <= 100_000 || f.content in allTranscripts
      invariant Packed(allTranscripts, cuts, outputFiles)
      invariant |cuts| > 0 && cuts[|cuts| - 1] <= n
      invariant currentContent == Joined(allTranscripts[cuts[|cuts| - 1]..n])
      invariant |currentContent| <= MAX_CHARS_PER_FILE
      invariant currentContent == "" <==> cuts[|cuts| - 1] == n
    {
      var transcript := allTranscripts[n];
      if |currentContent| > 0 && |currentContent| + |transcript| + 2 > MAX_CHARS_PER_FILE {
        OversizeIsAlone(allTranscripts, cuts[|cuts| - 1], n);
        WriteKeeps(allTranscripts, cuts, outputFiles, n);
        outputFiles, cuts := outputFiles + [OutputFile(fileIndex, currentContent)], cuts + [n];
        currentContent := "";
        fileIndex := fileIndex + 1;
      }
      JoinedExtends(allTranscripts, cuts[|cuts| - 1], n);
      if |transcript| > MAX_CHARS_PER_FILE {
        if |currentContent| > 0 {
          outputFiles := outputFiles + [OutputFile(fileIndex, currentContent)];
          currentContent := "";
          fileIndex := fileIndex + 1;
        }
        if n + 1 < |allTranscripts| {
          JoinedExtends(allTranscripts, n, n);
          OversizeIsAlone(allTranscripts, n, n + 1);
        }
        WriteKeeps(allTranscripts, cuts, outputFiles, n + 1);
        outputFiles, cuts := outputFiles + [OutputFile(fileIndex, transcript)], cuts + [n + 1];
        fileIndex := fileIndex + 1;
        continue;
      }
      currentContent := currentContent + (if currentContent != "" then SEPARATOR else "") + transcript;
    }
    if |currentContent| > 0 {
      WriteKeeps(allTranscripts, cuts, outputFiles, |allTranscripts|);
      outputFiles, cuts := outputFiles + [OutputFile(fileIndex, currentContent)], cuts + [|allTranscripts|];
    }
    PackedAllIsOptimal(allTranscripts, cuts, outputFiles);
  }
}
