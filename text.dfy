/** The pieces of Rust's `str` API that the command-line client leans on:
    `lines()`, `trim()` and, for ASCII, `to_lowercase()`. */
module Text {
  import opened Prelude

  /** Unicode's White_Space property, the set `char::is_whitespace` (and so
      `str::trim`) uses. */
  predicate IsWhiteSpace(c: char)
  {
    var cp := c as int;
    (0x09 <= cp <= 0x0D) || cp == 0x20 || cp == 0x85 || cp == 0xA0 || cp == 0x1680
    || (0x2000 <= cp <= 0x200A) || cp == 0x2028 || cp == 0x2029 || cp == 0x202F
    || cp == 0x205F || cp == 0x3000
  }

  /** `str::trim_start`. */
  function TrimStart(s: string): (r: string)
    ensures r == [] || !IsWhiteSpace(r[0])
    ensures |r| <= |s|
  {
    if s == [] || !IsWhiteSpace(s[0]) then s else TrimStart(s[1..])
  }

  /** `str::trim_end`. */
  function TrimEnd(s: string): (r: string)
    ensures r == [] || !IsWhiteSpace(r[|r| - 1])
    ensures |r| <= |s|
  {
    if s == [] || !IsWhiteSpace(s[|s| - 1]) then s else TrimEnd(s[..|s| - 1])
  }

  /** `str::trim`. */
  function Trim(s: string): string
  {
    TrimEnd(TrimStart(s))
  }

  /** Trimming the start drops white space and nothing else. */
  lemma {:induction false} TrimStartDropsWhiteSpace(s: string)
    ensures var r := TrimStart(s);
      r == s[|s| - |r|..] && forall j :: 0 <= j < |s| - |r| ==> IsWhiteSpace(s[j])
  {
    if s != [] && IsWhiteSpace(s[0]) {
      TrimStartDropsWhiteSpace(s[1..]);
    }
  }

  /** Trimming the end drops white space and nothing else. */
  lemma {:induction false} TrimEndDropsWhiteSpace(s: string)
    ensures var r := TrimEnd(s);
      r == s[..|r|] && forall j :: |r| <= j < |s| ==> IsWhiteSpace(s[j])
  {
    if s != [] && IsWhiteSpace(s[|s| - 1]) {
      var init := s[..|s| - 1];
      TrimEndDropsWhiteSpace(init);
      assert forall j :: |TrimEnd(init)| <= j < |init| ==> s[j] == init[j];
    }
  }

  /** Whether a trimmed line starts with `prefix` depends only on the leading
      white space being dropped, provided the prefix itself does not end in
      white space. */
  lemma TrimmedStartsWith(s: string, prefix: string)
    requires prefix != [] && !IsWhiteSpace(prefix[|prefix| - 1])
    ensures StartsWith(Trim(s), prefix) <==> StartsWith(TrimStart(s), prefix)
  {
    var t := TrimStart(s);
    var n, k := |prefix|, |Trim(s)|;
    TrimEndDropsWhiteSpace(t);
    if StartsWith(t, prefix) {
      assert !IsWhiteSpace(t[n - 1]);
      assert n <= k;
      assert t[..k][..n] == t[..n];
    }
    if StartsWith(Trim(s), prefix) {
      assert t[..k][..n] == t[..n];
    }
  }

  /** ASCII lower-casing. `to_lowercase` also folds other letters, but none
      of those folds to an ASCII letter except the Kelvin sign, which no
      comparison below can reach, so comparing against ASCII words is
      decided by ASCII letters alone. */
  function AsciiLower(s: string): (r: string)
    ensures |r| == |s|
    ensures forall i :: 0 <= i < |s| ==> r[i] == (if 'A' <= s[i] <= 'Z' then (s[i] as int + 32) as char else s[i])
  {
    if s == [] then [] else [if 'A' <= s[0] <= 'Z' then (s[0] as int + 32) as char else s[0]] + AsciiLower(s[1..])
  }

  /** The index of the first line feed in `s` at or after `from`, or `|s|`. */
  function LineEnd(s: string, from: nat): (i: nat)
    requires from <= |s|
    ensures from <= i <= |s|
    ensures i < |s| ==> s[i] == '\n'
    ensures forall j :: from <= j < i ==> s[j] != '\n'
    decreases |s| - from
  {
    if from == |s| || s[from] == '\n' then from else LineEnd(s, from + 1)
  }

  /** Drops one carriage return ending a line. */
  function StripCr(line: string): string
  {
    if line != [] && line[|line| - 1] == '\r' then line[..|line| - 1] else line
  }

  /** `str::lines`: split after each line feed, drop the line feed and one
      carriage return before it; a last line with no line feed is kept as
      it is, and the empty text has no lines. */
  function Lines(s: string): (ls: seq<string>)
    ensures forall k :: 0 <= k < |ls| ==> '\n' !in ls[k]
    decreases |s|
  {
    if s == [] then []
    else
      var i := LineEnd(s, 0);
      if i == |s| then
        assert forall j :: 0 <= j < |s| ==> s[j] != '\n';
        [s]
      else
        assert forall j :: 0 <= j < i ==> s[..i][j] != '\n';
        [StripCr(s[..i])] + Lines(s[i + 1..])
  }

  /** Each line followed by a line feed: the text a block accumulates. */
  function JoinLines(ls: seq<string>): string
  {
    if ls == [] then "" else ls[0] + "\n" + JoinLines(ls[1..])
  }

  lemma {:induction false} JoinLinesAppend(ls: seq<string>, l: string)
    ensures JoinLines(ls + [l]) == JoinLines(ls) + l + "\n"
  {
    if ls == [] {
      assert [] + [l] == [l];
      assert JoinLines([l][1..]) == "";
    } else {
      assert (ls + [l])[0] == ls[0] && (ls + [l])[1..] == ls[1..] + [l];
      JoinLinesAppend(ls[1..], l);
    }
  }

  /** Lines with no line feed and no trailing carriage return come back
      unchanged from `lines()` after being joined with line feeds. */
  lemma {:induction false} LinesOfJoinLines(ls: seq<string>)
    requires forall k :: 0 <= k < |ls| ==> '\n' !in ls[k] && (ls[k] == [] || ls[k][|ls[k]| - 1] != '\r')
    ensures Lines(JoinLines(ls)) == ls
  {
    if ls != [] {
      var s := JoinLines(ls);
      var l := ls[0];
      assert s == l + ("\n" + JoinLines(ls[1..]));
      assert forall j :: 0 <= j < |l| ==> s[j] == l[j] && s[j] != '\n';
      assert s[|l|] == '\n';
      assert LineEnd(s, 0) == |l| by { LineEndAt(s, 0, |l|); }
      assert s[..|l|] == l;
      assert s[|l| + 1..] == JoinLines(ls[1..]);
      LinesOfJoinLines(ls[1..]);
      assert [l] + ls[1..] == ls;
    }
  }

  lemma {:induction false} LineEndAt(s: string, from: nat, i: nat)
    requires from <= i < |s| && s[i] == '\n'
    requires forall j :: from <= j < i ==> s[j] != '\n'
    ensures LineEnd(s, from) == i
    decreases i - from
  {
    if from < i {
      LineEndAt(s, from + 1, i);
    }
  }
}
