/** The fallback parser of src/mcp/gemini.rs (`parse_function_calls`): a
    response text is scanned line by line for fenced code blocks, and each
    closed block whose text decodes as a function call yields that call.
    The JSON decoder is not modelled; it is the parameter `decode`, the
    partial function serde computes from a block's text. */
module FunctionCalls {
  import opened Prelude
  import opened Text
  import opened Utf8
  import opened CapabilityBridge

  const Fence: string := "```"

  /** A line that opens or closes a fenced block: once trimmed, it starts
      with three backticks (and may go on with a language tag). */
  predicate IsFence(line: string)
  {
    StartsWith(Trim(line), Fence)
  }

  /** Only the indentation matters: white space after the backticks does
      not, so an indented fence is a fence. */
  lemma FenceIgnoresTrailingSpace(line: string)
    ensures IsFence(line) <==> StartsWith(TrimStart(line), Fence)
  {
    TrimmedStartsWith(line, Fence);
  }

  /** Which lines are fences. */
  function FenceMarks(lines: seq<string>): (marks: seq<bool>)
    ensures |marks| == |lines|
  {
    if lines == [] then [] else FenceMarks(lines[..|lines| - 1]) + [IsFence(lines[|lines| - 1])]
  }

  lemma {:induction false} FenceMarkAt(lines: seq<string>, j: nat)
    requires j < |lines|
    ensures FenceMarks(lines)[j] == IsFence(lines[j])
  {
    if j < |lines| - 1 {
      FenceMarkAt(lines[..|lines| - 1], j);
    }
  }

  /** The positions of the marked lines among the first `n`, in order. */
  function Fences(marks: seq<bool>, n: nat): (fs: seq<nat>)
    requires n <= |marks|
    ensures forall k :: 0 <= k < |fs| ==> fs[k] < n && marks[fs[k]]
    ensures forall k, m :: 0 <= k < m < |fs| ==> fs[k] < fs[m]
  {
    if n == 0 then [] else Fences(marks, n - 1) + (if marks[n - 1] then [n - 1] else [])
  }

  /** Every marked line is recorded. */
  lemma {:induction false} FencesComplete(marks: seq<bool>, n: nat, j: nat)
    requires j < n <= |marks| && marks[j]
    ensures j in Fences(marks, n)
  {
    if j < n - 1 {
      FencesComplete(marks, n - 1, j);
    }
  }

  /** The blocks closed among the first `n` lines: a fence closes a block
      when an odd number of fences come before it, and the block holds the
      lines since the previous fence, each followed by a line feed. */
  function ClosedBlocks(lines: seq<string>, marks: seq<bool>, n: nat): seq<string>
    requires |marks| == |lines| && n <= |lines|
  {
    if n == 0 then []
    else
      var fs := Fences(marks, n - 1);
      var earlier := ClosedBlocks(lines, marks, n - 1);
      if marks[n - 1] && |fs| % 2 == 1 then
        earlier + [JoinLines(lines[fs[|fs| - 1] + 1..n - 1])]
      else earlier
  }

  /** The blocks of a whole response. */
  function Blocks(lines: seq<string>): seq<string>
  {
    ClosedBlocks(lines, FenceMarks(lines), |lines|)
  }

  /** The calls among the blocks, in order: a block that does not decode is
      skipped. */
  function DecodeAll(decode: string -> Option<FunctionCall>, blocks: seq<string>): seq<FunctionCall>
  {
    if blocks == [] then []
    else
      var last := decode(blocks[|blocks| - 1]);
      DecodeAll(decode, blocks[..|blocks| - 1]) + (if last.Some? then [last.value] else [])
  }

  lemma DecodeAllAppend(decode: string -> Option<FunctionCall>, blocks: seq<string>, block: string)
    ensures DecodeAll(decode, blocks + [block])
      == DecodeAll(decode, blocks) + (if decode(block).Some? then [decode(block).value] else [])
  {
    assert (blocks + [block])[..|blocks|] == blocks;
  }

  /** Fences pair up: the k-th block runs from fence 2k to fence 2k+1 (an
      unpaired last fence opens a block that is never closed), holds exactly
      the lines strictly between them, and none of those is a fence. */
  lemma BlocksBetweenFences(lines: seq<string>, marks: seq<bool>, n: nat)
    requires |marks| == |lines| && n <= |lines|
    ensures var fs, bs := Fences(marks, n), ClosedBlocks(lines, marks, n);
      && |bs| == |fs| / 2
      && (forall k :: 0 <= k < |bs| ==> bs[k] == JoinLines(lines[fs[2 * k] + 1..fs[2 * k + 1]]))
      && (forall k, j :: 0 <= k < |bs| && fs[2 * k] < j < fs[2 * k + 1] ==> !marks[j])
  {
    PairedUpTo(lines, marks, n);
  }

  /** `bs` are the blocks between the fences at positions `fs`, paired up in
      order. */
  predicate PairedBlocks(lines: seq<string>, marks: seq<bool>, fs: seq<nat>, bs: seq<string>)
  {
    && (forall k :: 0 <= k < |fs| ==> fs[k] < |lines| && fs[k] < |marks| && marks[fs[k]])
    && (forall k :: 0 <= k < |fs| - 1 ==> fs[k] < fs[k + 1])
    && |bs| == |fs| / 2
    && (forall k :: 0 <= k < |bs| ==> bs[k] == JoinLines(lines[fs[2 * k] + 1..fs[2 * k + 1]]))
    && (forall k, j :: 0 <= k < |bs| && fs[2 * k] < j < fs[2 * k + 1] ==> !marks[j])
  }

  lemma {:induction false} PairedUpTo(lines: seq<string>, marks: seq<bool>, n: nat)
    requires |marks| == |lines| && n <= |lines|
    ensures PairedBlocks(lines, marks, Fences(marks, n), ClosedBlocks(lines, marks, n))
  {
    if n > 0 {
      var i := n - 1;
      PairedUpTo(lines, marks, i);
      PairedStep(lines, marks, i);
      assert i + 1 == n;
    }
  }

  lemma PairedStep(lines: seq<string>, marks: seq<bool>, i: nat)
    requires |marks| == |lines| && i < |lines|
    requires PairedBlocks(lines, marks, Fences(marks, i), ClosedBlocks(lines, marks, i))
    ensures PairedBlocks(lines, marks, Fences(marks, i + 1), ClosedBlocks(lines, marks, i + 1))
  {
    var n := i + 1;
    var fs, bs := Fences(marks, i), ClosedBlocks(lines, marks, i);
    FencesStep(marks, i);
    if marks[i] && |fs| % 2 == 1 {
      var open := fs[|fs| - 1];
      ClosingStep(lines, marks, i, open);
      NoFenceAfterLast(marks, i);
      PairsExtendByClose(lines, marks, fs, bs, i, Fences(marks, n), ClosedBlocks(lines, marks, n));
    } else if marks[i] {
      NonClosingStep(lines, marks, i);
      PairsExtendByOpen(lines, marks, fs, bs, i, Fences(marks, n));
    } else {
      NonClosingStep(lines, marks, i);
    }
  }

  lemma PairsExtendByClose(lines: seq<string>, marks: seq<bool>, fs: seq<nat>, bs: seq<string>, x: nat,
                            fs': seq<nat>, bs': seq<string>)
    requires PairedBlocks(lines, marks, fs, bs)
    requires |fs| % 2 == 1 && fs[|fs| - 1] < x < |lines| && x < |marks| && marks[x]
    requires forall j :: fs[|fs| - 1] < j < x ==> !marks[j]
    requires fs' == fs + [x] && bs' == bs + [JoinLines(lines[fs[|fs| - 1] + 1..x])]
    ensures PairedBlocks(lines, marks, fs', bs')
  {
    assert |fs| == 2 * |bs| + 1;
    assert fs'[2 * |bs|] == fs[|fs| - 1] && fs'[2 * |bs| + 1] == x;
    assert |bs'| == |fs'| / 2;
    forall k | 0 <= k < |fs'|
      ensures fs'[k] < |lines| && fs'[k] < |marks| && marks[fs'[k]]
    {
      if k < |fs| {
        assert fs'[k] == fs[k];
      }
    }
    forall k | 0 <= k < |fs'| - 1
      ensures fs'[k] < fs'[k + 1]
    {
      if k + 1 < |fs| {
        assert fs'[k] == fs[k] && fs'[k + 1] == fs[k + 1];
      }
    }
    forall k | 0 <= k < |bs'|
      ensures bs'[k] == JoinLines(lines[fs'[2 * k] + 1..fs'[2 * k + 1]])
    {
      if k < |bs| {
        assert fs'[2 * k] == fs[2 * k] && fs'[2 * k + 1] == fs[2 * k + 1];
      }
    }
    forall k, j | 0 <= k < |bs'| && fs'[2 * k] < j < fs'[2 * k + 1]
      ensures !marks[j]
    {
      if k < |bs| {
        assert fs'[2 * k] == fs[2 * k] && fs'[2 * k + 1] == fs[2 * k + 1];
      }
    }
  }

  lemma PairsExtendByOpen(lines: seq<string>, marks: seq<bool>, fs: seq<nat>, bs: seq<string>, x: nat,
                           fs': seq<nat>)
    requires PairedBlocks(lines, marks, fs, bs)
    requires |fs| % 2 == 0 && x < |lines| && x < |marks| && marks[x]
    requires |fs| > 0 ==> fs[|fs| - 1] < x
    requires fs' == fs + [x]
    ensures PairedBlocks(lines, marks, fs', bs)
  {
    assert forall k :: 0 <= k < |fs| ==> fs'[k] == fs[k];
  }

  /** No line after the last recorded fence is a fence. */
  lemma NoFenceAfterLast(marks: seq<bool>, n: nat)
    requires n <= |marks| && |Fences(marks, n)| > 0
    ensures var fs := Fences(marks, n);
      forall j :: fs[|fs| - 1] < j < n ==> !marks[j]
  {
    var fs := Fences(marks, n);
    forall j | 0 <= j < n && marks[j]
      ensures j <= fs[|fs| - 1]
    {
      FencesComplete(marks, n, j);
      var m :| 0 <= m < |fs| && fs[m] == j;
      if m < |fs| - 1 {
        assert fs[m] < fs[|fs| - 1];
      }
    }
  }

  /** Lines with no fence among them add no block, whatever they hold: text
      after the last closing fence, or an unclosed block at the end. */
  lemma {:induction false} FenceFreeLinesAddNothing(lines: seq<string>, marks: seq<bool>, n: nat, m: nat)
    requires |marks| == |lines| && n <= m <= |lines|
    requires forall j :: n <= j < m ==> !marks[j]
    ensures ClosedBlocks(lines, marks, m) == ClosedBlocks(lines, marks, n)
    decreases m - n
  {
    if n < m {
      FenceFreeLinesAddNothing(lines, marks, n, m - 1);
    }
  }

  /** Every call comes from some block, in the order of the blocks, and a
      run of blocks that all decode yields one call each. */
  lemma {:induction false} DecodedCallsComeFromBlocks(decode: string -> Option<FunctionCall>, blocks: seq<string>)
    ensures |DecodeAll(decode, blocks)| <= |blocks|
    ensures forall c :: c in DecodeAll(decode, blocks) ==> exists k :: 0 <= k < |blocks| && decode(blocks[k]) == Some(c)
    ensures (forall k :: 0 <= k < |blocks| ==> decode(blocks[k]).Some?) ==> |DecodeAll(decode, blocks)| == |blocks|
  {
    if blocks != [] {
      var init := blocks[..|blocks| - 1];
      DecodedCallsComeFromBlocks(decode, init);
      forall c | c in DecodeAll(decode, blocks)
        ensures exists k :: 0 <= k < |blocks| && decode(blocks[k]) == Some(c)
      {
        if c in DecodeAll(decode, init) {
          var k :| 0 <= k < |init| && decode(init[k]) == Some(c);
          assert blocks[k] == init[k];
        } else {
          assert decode(blocks[|blocks| - 1]) == Some(c);
        }
      }
      if forall k :: 0 <= k < |blocks| ==> decode(blocks[k]).Some? {
        forall k | 0 <= k < |init|
          ensures decode(init[k]).Some?
        {
          assert init[k] == blocks[k];
        }
      }
    }
  }

  lemma FencesStep(marks: seq<bool>, i: nat)
    requires i < |marks|
    ensures Fences(marks, i + 1) == Fences(marks, i) + (if marks[i] then [i] else [])
  {
  }

  /** A fence after an odd number of fences closes the block opened by the
      last one. */
  lemma ClosingStep(lines: seq<string>, marks: seq<bool>, i: nat, open: nat)
    requires |marks| == |lines| && i < |lines| && marks[i]
    requires var fs := Fences(marks, i); |fs| % 2 == 1 && open == fs[|fs| - 1]
    ensures ClosedBlocks(lines, marks, i + 1) == ClosedBlocks(lines, marks, i) + [JoinLines(lines[open + 1..i])]
  {
    var fs := Fences(marks, i);
    var n := i + 1;
    assert n - 1 == i;
    assert ClosedBlocks(lines, marks, n) == ClosedBlocks(lines, marks, n - 1) + [JoinLines(lines[fs[|fs| - 1] + 1..n - 1])];
  }

  /** Any other line closes nothing. */
  lemma NonClosingStep(lines: seq<string>, marks: seq<bool>, i: nat)
    requires |marks| == |lines| && i < |lines|
    requires !marks[i] || |Fences(marks, i)| % 2 == 0
    ensures ClosedBlocks(lines, marks, i + 1) == ClosedBlocks(lines, marks, i)
  {
  }

  /** Trims a line and tells whether it is a fence, and whether a fence
      carries more than the three backticks (a language tag). */
  method ClassifyLine(line: string) returns (fence: bool, tagged: bool)
    ensures fence == IsFence(line)
    ensures tagged == (fence && ByteLength(Trim(line)) > 3)
  {
    var trimmed := Trim(line);
    fence := StartsWith(trimmed, Fence);
    tagged := fence && ByteLength(trimmed) > 3;
  }

  /** The scan after `i` lines: inside a block exactly after an odd number
      of fences, the block holding the lines since the last fence, and the
      calls of the blocks closed so far collected. */
  predicate Scanned(lines: seq<string>, marks: seq<bool>, decode: string -> Option<FunctionCall>, i: nat,
                    inCodeBlock: bool, open: nat, currentBlock: string, calls: seq<FunctionCall>)
    requires |marks| == |lines| && i <= |lines|
  {
    var fs := Fences(marks, i);
    && (inCodeBlock <==> |fs| % 2 == 1)
    && (inCodeBlock ==> open == fs[|fs| - 1] && open < i && currentBlock == JoinLines(lines[open + 1..i]))
    && calls == DecodeAll(decode, ClosedBlocks(lines, marks, i))
  }

  lemma OpenStep(lines: seq<string>, marks: seq<bool>, decode: string -> Option<FunctionCall>, i: nat,
                 open: nat, currentBlock: string, calls: seq<FunctionCall>)
    requires |marks| == |lines| && i < |lines| && marks[i]
    requires Scanned(lines, marks, decode, i, false, open, currentBlock, calls)
    ensures Scanned(lines, marks, decode, i + 1, true, i, "", calls)
  {
    FencesStep(marks, i);
    NonClosingStep(lines, marks, i);
  }

  lemma CloseStep(lines: seq<string>, marks: seq<bool>, decode: string -> Option<FunctionCall>, i: nat,
                  open: nat, currentBlock: string, calls: seq<FunctionCall>)
    requires |marks| == |lines| && i < |lines| && marks[i]
    requires Scanned(lines, marks, decode, i, true, open, currentBlock, calls)
    ensures var d := decode(currentBlock);
      Scanned(lines, marks, decode, i + 1, false, open, "", calls + if d.Some? then [d.value] else [])
  {
    FencesStep(marks, i);
    ClosingStep(lines, marks, i, open);
    DecodeAllAppend(decode, ClosedBlocks(lines, marks, i), currentBlock);
  }

  lemma TextStep(lines: seq<string>, marks: seq<bool>, decode: string -> Option<FunctionCall>, i: nat,
                 inCodeBlock: bool, open: nat, currentBlock: string, calls: seq<FunctionCall>)
    requires |marks| == |lines| && i < |lines| && !marks[i]
    requires Scanned(lines, marks, decode, i, inCodeBlock, open, currentBlock, calls)
    ensures Scanned(lines, marks, decode, i + 1, inCodeBlock, open,
                    if inCodeBlock then currentBlock + lines[i] + "\n" else currentBlock, calls)
  {
    FencesStep(marks, i);
    NonClosingStep(lines, marks, i);
    if inCodeBlock {
      assert lines[open + 1..i + 1] == lines[open + 1..i] + [lines[i]];
      JoinLinesAppend(lines[open + 1..i], lines[i]);
    }
  }

  /** `parse_function_calls`: the calls decoded from the closed blocks. */
  method ParseFunctionCalls(responseText: string, decode: string -> Option<FunctionCall>)
    returns (calls: seq<FunctionCall>)
    ensures calls == DecodeAll(decode, Blocks(Lines(responseText)))
  {
    var lines := Lines(responseText);
    ghost var marks := FenceMarks(lines);
    calls := [];
    var inCodeBlock := false;
    var currentBlock := "";
    ghost var open: nat := 0;
    for i := 0 to |lines|
      invariant Scanned(lines, marks, decode, i, inCodeBlock, open, currentBlock, calls)
    {
      var line := lines[i];
      var fence, tagged := ClassifyLine(line);
      FenceMarkAt(lines, i);
      if fence {
        if !inCodeBlock {
          OpenStep(lines, marks, decode, i, open, currentBlock, calls);
          inCodeBlock := true;
          currentBlock := "";
          open := i;
          if tagged {
            // a language tag after the backticks: the line is skipped
            continue;
          }
        } else {
          CloseStep(lines, marks, decode, i, open, currentBlock, calls);
          inCodeBlock := false;
          var decoded := decode(currentBlock);
          if decoded.Some? {
            calls := calls + [decoded.value];
          }
          currentBlock := "";
        }
      } else {
        TextStep(lines, marks, decode, i, inCodeBlock, open, currentBlock, calls);
        if inCodeBlock {
          currentBlock := currentBlock + line + "\n";
        }
      }
    }
  }

  /** A response yields at most one call per pair of fences, none without
      fences, and exactly one per pair when every closed block decodes. */
  lemma CallsFromFences(responseText: string, decode: string -> Option<FunctionCall>)
    ensures var lines := Lines(responseText);
      (forall j :: 0 <= j < |lines| ==> !IsFence(lines[j]))
      ==> DecodeAll(decode, Blocks(lines)) == []
    ensures var lines := Lines(responseText);
      |DecodeAll(decode, Blocks(lines))| <= |Fences(FenceMarks(lines), |lines|)| / 2
    ensures var lines := Lines(responseText);
      var bs := Blocks(lines);
      (forall k :: 0 <= k < |bs| ==> decode(bs[k]).Some?)
      ==> |DecodeAll(decode, bs)| == |Fences(FenceMarks(lines), |lines|)| / 2
  {
    var lines := Lines(responseText);
    var marks := FenceMarks(lines);
    var bs := Blocks(lines);
    if forall j :: 0 <= j < |lines| ==> !IsFence(lines[j]) {
      forall j | 0 <= j < |lines|
        ensures !marks[j]
      {
        FenceMarkAt(lines, j);
      }
      FenceFreeLinesAddNothing(lines, marks, 0, |lines|);
    }
    BlocksBetweenFences(lines, marks, |lines|);
    DecodedCallsComeFromBlocks(decode, bs);
  }
}
