/** Commenting the stock server block out of nginx.conf (infra/user_data.sh:57-83). */
module ServerBlock {
  import opened Basics

  function Count(s: string, c: char): nat {
    if s == "" then 0 else Count(s[..|s| - 1], c) + (if s[|s| - 1] == c then 1 else 0)
  }

  /** Braces opened less braces closed. */
  function Net(s: string): int { Count(s, '{') - Count(s, '}') }

  /** `/^[[:space:]]*server[[:space:]]*\{/`. */
  predicate Opens(line: string) {
    var s := DropBlanks(line);
    "server" <= s && var t := DropBlanks(s[6..]); t != "" && t[0] == '{'
  }

  /** Blanks, the word at `i`, blanks, an opening brace at `j`, anything. */
  ghost predicate OpensAt(line: string, i: int, j: int) {
    && 0 <= i && i + 6 <= j < |line|
    && Blanks(line[..i]) && line[i..i + 6] == "server" && Blanks(line[i + 6..j]) && line[j] == '{'
  }

  lemma OpensIff(line: string)
    ensures Opens(line) <==> exists i, j :: OpensAt(line, i, j)
  {
    if Opens(line) {
      var i := BlanksDropped(line);
      var rest := line[i..][6..];
      var n := BlanksDropped(rest);
      assert rest == line[i + 6..] && rest[..n] == line[i + 6..][..n] == line[i + 6..i + 6 + n];
      assert line[i..][..6] == line[i..i + 6] == "server";
      assert OpensAt(line, i, i + 6 + n);
    }
    if i, j :| OpensAt(line, i, j) { OpensHere(line, i, j); }
  }

  lemma OpensHere(line: string, i: int, j: int)
    requires OpensAt(line, i, j)
    ensures Opens(line)
  {
    var s := line[i..];
    assert s[..6] == line[i..i + 6] == "server" && s[0] == "server"[0];
    BlanksFirst(line[..i], s);
    assert line == line[..i] + s;
    BlanksFirst(line[i + 6..j], line[j..]);
    assert s[6..] == line[i + 6..j] + line[j..];
  }

  // ---- which lines --------------------------------------------------------------------------------

  /** The first line that opens a server block, or the number of lines. */
  function Opening(lines: seq<string>): (a: nat)
    ensures a <= |lines| && (forall i :: 0 <= i < a ==> !Opens(lines[i])) && (a < |lines| ==> Opens(lines[a]))
  {
    if lines == [] || Opens(lines[0]) then 0 else 1 + Opening(lines[1..])
  }

  /** Nesting after line `j` of a block opened at `a`: the opening line counts as one brace. */
  function Depth(lines: seq<string>, a: nat, j: nat): int
    requires a <= j < |lines|
  {
    if j == a then 1 else Depth(lines, a, j - 1) + Net(lines[j])
  }

  /** Lines `a` to `b` (exclusive) are the block opened at `a`: it ends with the first later line that
      brings the nesting to zero or below, or with the file. */
  ghost predicate IsBlock(lines: seq<string>, a: nat, b: nat) {
    && a < b <= |lines|
    && (forall k :: a < k < b - 1 ==> Depth(lines, a, k) > 0)
    && (b == |lines| || (a < b - 1 && Depth(lines, a, b - 1) <= 0))
  }

  /** Where the block opened at `a` ends, if it does not end before line `j`. */
  function EndFrom(lines: seq<string>, a: nat, j: nat): (b: nat)
    requires a < j <= |lines| && forall k :: a < k < j ==> Depth(lines, a, k) > 0
    ensures IsBlock(lines, a, b)
    decreases |lines| - j
  {
    if j == |lines| then j else if Depth(lines, a, j) <= 0 then j + 1 else EndFrom(lines, a, j + 1)
  }

  /** The end of the first server block, or the number of lines. */
  function Ending(lines: seq<string>): (b: nat)
    ensures if Opening(lines) == |lines| then b == |lines| else IsBlock(lines, Opening(lines), b)
  {
    if Opening(lines) == |lines| then |lines| else EndFrom(lines, Opening(lines), Opening(lines) + 1)
  }

  /** `out` is `lines` with exactly the first server block commented. */
  ghost predicate FirstBlockCommented(lines: seq<string>, out: seq<string>) {
    var a, b := Opening(lines), Ending(lines);
    && |out| == |lines|
    && forall i :: 0 <= i < |lines| ==> out[i] == if a <= i < b then "#" + lines[i] else lines[i]
  }

  lemma BlockEndsNoLater(lines: seq<string>, a: nat, b: nat, c: nat)
    requires IsBlock(lines, a, b) && IsBlock(lines, a, c)
    ensures c <= b
  {
  }

  /** So the block is determined by the file. */
  lemma BlockIsUnique(lines: seq<string>, a: nat, b: nat, c: nat)
    requires IsBlock(lines, a, b) && IsBlock(lines, a, c)
    ensures b == c
  {
    BlockEndsNoLater(lines, a, b, c);
    BlockEndsNoLater(lines, a, c, b);
  }

  // ---- the awk program ------------------------------------------------------------------------------

  /** The state of the loop after `n` lines: before the block, inside it, or past it. */
  ghost predicate Progress(lines: seq<string>, n: nat, done: bool, inblk: bool, depth: int, b: nat) {
    var a := Opening(lines);
    && n <= |lines|
    && (!done && !inblk ==> n <= a)
    && (inblk ==> !done && a < n && depth > 0 && depth == Depth(lines, a, n - 1)
                  && forall k :: a < k < n ==> Depth(lines, a, k) > 0)
    && (done ==> a < |lines| && b <= n && IsBlock(lines, a, b))
  }

  /** One more line outside the block: it opens the block or does not touch it. */
  lemma ProgressOutside(lines: seq<string>, n: nat, done: bool, depth: int, b: nat)
    requires Progress(lines, n, done, false, depth, b) && n < |lines|
    ensures !done ==> (Opens(lines[n]) <==> n == Opening(lines))
    ensures !done && Opens(lines[n]) ==> Progress(lines, n + 1, false, true, 1, b)
    ensures !done && !Opens(lines[n]) ==> Progress(lines, n + 1, false, false, depth, b)
    ensures done ==> Progress(lines, n + 1, true, false, depth, b)
  {
  }

  /** One more line inside it: it deepens or closes the block. */
  lemma ProgressInside(lines: seq<string>, n: nat, depth: int, b: nat)
    requires Progress(lines, n, false, true, depth, b) && n < |lines|
    ensures depth + Net(lines[n]) > 0 ==> Progress(lines, n + 1, false, true, depth + Net(lines[n]), b)
    ensures depth + Net(lines[n]) <= 0 ==> Progress(lines, n + 1, true, false, depth + Net(lines[n]), n + 1)
  {
    assert Depth(lines, Opening(lines), n) == depth + Net(lines[n]);
  }

  /** The first `n` lines of the output, commented from line `a` on, once `done` only to line `b`. */
  ghost predicate Marked(lines: seq<string>, a: nat, n: nat, out: seq<string>, done: bool, b: nat) {
    n <= |lines| && |out| == n && forall i :: 0 <= i < n ==>
      out[i] == if a <= i && (done ==> i < b) then "#" + lines[i] else lines[i]
  }

  lemma MarkBefore(lines: seq<string>, a: nat, n: nat, out: seq<string>, b: nat)
    requires Marked(lines, a, n, out, false, b) && n < |lines| && n <= a
    ensures Marked(lines, a, n + 1, out + [if n == a then "#" + lines[n] else lines[n]], false, b)
  {
  }

  lemma MarkInside(lines: seq<string>, a: nat, n: nat, out: seq<string>, b: nat)
    requires Marked(lines, a, n, out, false, b) && n < |lines| && a < n
    ensures Marked(lines, a, n + 1, out + ["#" + lines[n]], false, b)
    ensures Marked(lines, a, n + 1, out + ["#" + lines[n]], true, n + 1)
  {
  }

  lemma MarkAfter(lines: seq<string>, a: nat, n: nat, out: seq<string>, b: nat)
    requires Marked(lines, a, n, out, true, b) && n < |lines| && b <= n
    ensures Marked(lines, a, n + 1, out + [lines[n]], true, b)
  {
  }

  /** The variables of the program, the lines printed, and where the block ended. */
  datatype Awk = Awk(done: bool, inblk: bool, depth: int, out: seq<string>, end: nat)

  ghost function AfterLine(s: Awk, line: string): Awk {
    if !s.done && !s.inblk && Opens(line) then s.(inblk := true, depth := 1, out := s.out + ["#" + line])
    else if s.inblk then
      var depth := s.depth + Net(line);
      var out := s.out + ["#" + line];
      if depth <= 0 then Awk(true, false, depth, out, |out|) else s.(depth := depth, out := out)
    else s.(out := s.out + [line])
  }

  ghost function AwkRun(lines: seq<string>): Awk {
    if lines == [] then Awk(false, false, 0, [], 0) else AfterLine(AwkRun(lines[..|lines| - 1]), lines[|lines| - 1])
  }

  lemma {:induction false} AwkPrints(lines: seq<string>)
    ensures |AwkRun(lines).out| == |lines|
  {
    if lines != [] { AwkPrints(lines[..|lines| - 1]); }
  }

  ghost predicate AwkProgress(lines: seq<string>, n: nat, s: Awk) {
    Progress(lines, n, s.done, s.inblk, s.depth, s.end)
  }

  lemma {:induction false} AwkProgresses(lines: seq<string>, n: nat)
    requires n <= |lines|
    ensures AwkProgress(lines, n, AwkRun(lines[..n]))
  {
    if n > 0 {
      AwkProgresses(lines, n - 1);
      assert lines[..n][..n - 1] == lines[..n - 1];
      AwkPrints(lines[..n - 1]);
      ProgressNext(lines, n - 1, AwkRun(lines[..n - 1]));
    }
  }

  lemma ProgressNext(lines: seq<string>, n: nat, s: Awk)
    requires AwkProgress(lines, n, s) && n < |lines| && |s.out| == n
    ensures AwkProgress(lines, n + 1, AfterLine(s, lines[n]))
  {
    if s.inblk { ProgressInside(lines, n, s.depth, s.end); }
    else { ProgressOutside(lines, n, s.done, s.depth, s.end); }
  }

  lemma {:induction false} AwkMarks(lines: seq<string>, n: nat)
    requires n <= |lines|
    ensures Marked(lines, Opening(lines), n, AwkRun(lines[..n]).out, AwkRun(lines[..n]).done, AwkRun(lines[..n]).end)
  {
    if n > 0 {
      AwkMarks(lines, n - 1);
      AwkProgresses(lines, n - 1);
      assert lines[..n][..n - 1] == lines[..n - 1];
      MarkStep(lines, n - 1, AwkRun(lines[..n - 1]));
    }
  }

  lemma MarkStep(lines: seq<string>, n: nat, s: Awk)
    requires n < |lines| && AwkProgress(lines, n, s) && Marked(lines, Opening(lines), n, s.out, s.done, s.end)
    ensures var t := AfterLine(s, lines[n]); Marked(lines, Opening(lines), n + 1, t.out, t.done, t.end)
  {
    if s.inblk { MarkInside(lines, Opening(lines), n, s.out, s.end); }
    else if s.done { MarkAfter(lines, Opening(lines), n, s.out, s.end); }
    else {
      ProgressOutside(lines, n, s.done, s.depth, s.end);
      MarkBefore(lines, Opening(lines), n, s.out, s.end);
    }
  }

  method CommentServerBlock(lines: seq<string>) returns (out: seq<string>)
    ensures FirstBlockCommented(lines, out)
  {
    var done, inblk, depth := false, false, 0;
    out := [];
    ghost var b: nat := 0;
    for n := 0 to |lines|
      invariant AwkRun(lines[..n]) == Awk(done, inblk, depth, out, b)
    {
      var line := lines[n];
      assert lines[..n + 1][..n] == lines[..n];
      if !done && !inblk && Opens(line) {
        inblk, depth := true, 1;
        out := out + ["#" + line];
      } else if inblk {
        depth := depth + Count(line, '{') - Count(line, '}');
        out := out + ["#" + line];
        if depth <= 0 {
          inblk, done := false, true;
          b := |out|;
        }
      } else {
        out := out + [line];
      }
    }
    AwkProgresses(lines, |lines|);
    AwkMarks(lines, |lines|);
    assert lines[..|lines|] == lines;
    Finished(lines, out, done, inblk, depth, b);
  }

  lemma Finished(lines: seq<string>, out: seq<string>, done: bool, inblk: bool, depth: int, b: nat)
    requires Progress(lines, |lines|, done, inblk, depth, b) && Marked(lines, Opening(lines), |lines|, out, done, b)
    ensures FirstBlockCommented(lines, out)
  {
    if Opening(lines) < |lines| {
      BlockIsUnique(lines, Opening(lines), Ending(lines), if done then b else |lines|);
    }
  }

  // ---- what nginx still reads --------------------------------------------------------------------------

  /** A line up to its comment sign. */
  function Code(line: string): string {
    if line == "" || line[0] == '#' then "" else [line[0]] + Code(line[1..])
  }

  function View(lines: seq<string>): string {
    if lines == [] then "" else View(lines[..|lines| - 1]) + Code(lines[|lines| - 1])
  }

  /** Every brace closes one that was opened before it. */
  ghost predicate Balanced(s: string) {
    Net(s) == 0 && forall i :: 0 <= i <= |s| ==> Net(s[..i]) >= 0
  }

  lemma {:induction false} CountConcat(s: string, t: string, c: char)
    ensures Count(s + t, c) == Count(s, c) + Count(t, c)
  {
    if t == "" {
      assert s + t == s;
    } else {
      assert (s + t)[..|s + t| - 1] == s + t[..|t| - 1];
      CountConcat(s, t[..|t| - 1], c);
    }
  }

  lemma NetConcat(s: string, t: string)
    ensures Net(s + t) == Net(s) + Net(t)
  {
    CountConcat(s, t, '{');
    CountConcat(s, t, '}');
  }

  lemma {:induction false} ViewConcat(s: seq<string>, t: seq<string>)
    ensures View(s + t) == View(s) + View(t)
  {
    if t == [] {
      assert s + t == s;
    } else {
      assert (s + t)[..|s + t| - 1] == s + t[..|t| - 1];
      ViewConcat(s, t[..|t| - 1]);
    }
  }

  /** Commented lines are nothing to nginx. */
  lemma {:induction false} CommentedView(lines: seq<string>)
    requires forall i :: 0 <= i < |lines| ==> lines[i] != "" && lines[i][0] == '#'
    ensures View(lines) == ""
  {
    if lines != [] { CommentedView(lines[..|lines| - 1]); }
  }

  lemma PrefixNet(x: string, z: string, i: nat)
    requires i <= |x + z|
    ensures Net((x + z)[..i]) == if i <= |x| then Net(x[..i]) else Net(x) + Net(z[..i - |x|])
  {
    if i <= |x| { assert (x + z)[..i] == x[..i]; }
    else {
      assert (x + z)[..i] == x + z[..i - |x|];
      NetConcat(x, z[..i - |x|]);
    }
  }

  /** Cutting a stretch out of a balanced text leaves it balanced exactly when the stretch opens as many
      braces as it closes. */
  lemma CutKeepsBalance(x: string, y: string, z: string, all: string, cut: string)
    requires Balanced(all) && all == x + y + z && cut == x + z
    ensures Balanced(cut) <==> Net(y) == 0
  {
    NetConcat(x + y, z);
    NetConcat(x, y);
    NetConcat(x, z);
    if Net(y) == 0 {
      forall i | 0 <= i <= |cut| ensures Net(cut[..i]) >= 0 {
        PrefixNet(x, z, i);
        var j := if i <= |x| then i else i + |y|;
        assert Net(all[..j]) >= 0;
        PrefixNet(x + y, z, j);
        PrefixNet(x, y, if j <= |x + y| then j else 0);
      }
    }
  }

  /** Braces in the comments of the lines, which the program counts and nginx does not. */
  function CommentNet(lines: seq<string>): int {
    if lines == [] then 0
    else
      var last := lines[|lines| - 1];
      CommentNet(lines[..|lines| - 1]) + Net(last) - Net(Code(last))
  }

  /** None, if no line has braces in a comment. */
  lemma {:induction false} NoCommentNet(lines: seq<string>)
    requires forall i :: 0 <= i < |lines| ==> Net(Code(lines[i])) == Net(lines[i])
    ensures CommentNet(lines) == 0
  {
    if lines != [] { NoCommentNet(lines[..|lines| - 1]); }
  }

  /** The program's depth measures what the block opens and closes, except on the opening line and in comments. */
  lemma {:induction false} DepthIsNet(lines: seq<string>, a: nat, b: nat)
    requires a < b <= |lines|
    ensures Net(View(lines[a..b])) == Net(lines[a]) - 1 + Depth(lines, a, b - 1) - CommentNet(lines[a..b])
    decreases b
  {
    SliceNets(lines, a, b);
    if b - 1 == a {
      assert lines[a..b - 1] == [] && Net("") == 0;
    } else {
      DepthIsNet(lines, a, b - 1);
    }
  }

  lemma SliceNets(lines: seq<string>, a: nat, b: nat)
    requires a < b <= |lines|
    ensures Net(View(lines[a..b])) + CommentNet(lines[a..b])
         == Net(View(lines[a..b - 1])) + CommentNet(lines[a..b - 1]) + Net(lines[b - 1])
  {
    SliceSnoc(lines, a, b);
    NetConcat(View(lines[a..b - 1]), Code(lines[b - 1]));
  }

  lemma SliceSnoc(lines: seq<string>, a: nat, b: nat)
    requires a < b <= |lines|
    ensures View(lines[a..b]) == View(lines[a..b - 1]) + Code(lines[b - 1])
    ensures CommentNet(lines[a..b]) == CommentNet(lines[a..b - 1]) + Net(lines[b - 1]) - Net(Code(lines[b - 1]))
  {
    var block := lines[a..b];
    assert block[..|block| - 1] == lines[a..b - 1] && block[|block| - 1] == lines[b - 1];
  }

  /** What the commented file says to nginx: the text before and after the block. */
  lemma ViewOut(lines: seq<string>, out: seq<string>, a: nat, b: nat)
    requires a <= b <= |lines| == |out|
    requires forall i :: 0 <= i < |lines| ==> out[i] == if a <= i < b then "#" + lines[i] else lines[i]
    ensures View(out) == View(lines[..a]) + View(lines[b..])
  {
    OutSplits(lines, out, a, b);
    ViewWithout(lines[..a], out[a..b], lines[b..], out);
  }

  lemma ViewWithout(x: seq<string>, y: seq<string>, z: seq<string>, all: seq<string>)
    requires all == x + y + z && forall i :: 0 <= i < |y| ==> y[i] != "" && y[i][0] == '#'
    ensures View(all) == View(x) + View(z)
  {
    View3(x, y, z, all);
    CommentedView(y);
    assert View(x) + View(y) == View(x);
  }

  lemma OutSplits(lines: seq<string>, out: seq<string>, a: nat, b: nat)
    requires a <= b <= |lines| == |out|
    requires forall i :: 0 <= i < |lines| ==> out[i] == if a <= i < b then "#" + lines[i] else lines[i]
    ensures out == lines[..a] + out[a..b] + lines[b..]
  {
  }

  lemma View3(x: seq<string>, y: seq<string>, z: seq<string>, all: seq<string>)
    requires all == x + y + z
    ensures View(all) == View(x) + View(y) + View(z)
  {
    ViewConcat(x + y, z);
    ViewConcat(x, y);
  }

  /** With a server block, a balanced configuration stays balanced exactly when the braces of the opening line, beyond
      the one the program assumes, and what the closing line closes beyond the block add up to the braces in
      the block's comments. */
  lemma BalanceKeptIff(lines: seq<string>, out: seq<string>, a: nat, b: nat)
    requires FirstBlockCommented(lines, out) && a == Opening(lines) < |lines| && b == Ending(lines)
    ensures Balanced(View(lines)) ==>
      (Balanced(View(out)) <==> Net(lines[a]) - 1 + Depth(lines, a, b - 1) == CommentNet(lines[a..b]))
  {
    BalanceAround(lines, out, a, b);
  }

  lemma BalanceAround(lines: seq<string>, out: seq<string>, a: nat, b: nat)
    requires a < b <= |lines| == |out|
    requires forall i :: 0 <= i < |lines| ==> out[i] == if a <= i < b then "#" + lines[i] else lines[i]
    ensures Balanced(View(lines)) ==>
      (Balanced(View(out)) <==> Net(lines[a]) - 1 + Depth(lines, a, b - 1) == CommentNet(lines[a..b]))
  {
    if Balanced(View(lines)) {
      var x, y, z := Parts(lines, out, a, b);
      CutKeepsBalance(x, y, z, View(lines), View(out));
    }
  }

  lemma Parts(lines: seq<string>, out: seq<string>, a: nat, b: nat) returns (x: string, y: string, z: string)
    requires a < b <= |lines| == |out|
    requires forall i :: 0 <= i < |lines| ==> out[i] == if a <= i < b then "#" + lines[i] else lines[i]
    ensures View(lines) == x + y + z && View(out) == x + z
    ensures Net(y) == Net(lines[a]) - 1 + Depth(lines, a, b - 1) - CommentNet(lines[a..b])
  {
    ViewOut(lines, out, a, b);
    ViewIn(lines, a, b);
    y := NetOfBlock(lines, a, b);
    x, z := View(lines[..a]), View(lines[b..]);
  }

  lemma NetOfBlock(lines: seq<string>, a: nat, b: nat) returns (y: string)
    requires a < b <= |lines|
    ensures y == View(lines[a..b]) && Net(y) == Net(lines[a]) - 1 + Depth(lines, a, b - 1) - CommentNet(lines[a..b])
  {
    y := View(lines[a..b]);
    DepthIsNet(lines, a, b);
  }

  lemma ViewIn(lines: seq<string>, a: nat, b: nat)
    requires a <= b <= |lines|
    ensures View(lines) == View(lines[..a]) + View(lines[a..b]) + View(lines[b..])
  {
    Splits(lines, a, b);
    View3(lines[..a], lines[a..b], lines[b..], lines);
  }

  lemma Splits(lines: seq<string>, a: nat, b: nat)
    requires a <= b <= |lines|
    ensures lines == lines[..a] + lines[a..b] + lines[b..]
  {
  }

  /** When the opening line holds one brace and the block closes at a line's end, the braces in the block's
      comments alone decide. */
  lemma StockBlockIsSafe(lines: seq<string>, out: seq<string>, a: nat, b: nat)
    requires FirstBlockCommented(lines, out) && a == Opening(lines) < |lines| && b == Ending(lines)
    requires Count(lines[a], '{') == 1 && Count(lines[a], '}') == 0 && Depth(lines, a, b - 1) == 0
    ensures Balanced(View(lines)) ==> (Balanced(View(out)) <==> CommentNet(lines[a..b]) == 0)
  {
    BalanceKeptIff(lines, out, a, b);
  }

  /** So a stock block without braces in its comments can be commented out safely. */
  lemma PlainBlockIsSafe(lines: seq<string>, out: seq<string>, a: nat, b: nat)
    requires FirstBlockCommented(lines, out) && a == Opening(lines) < |lines| && b == Ending(lines)
    requires Count(lines[a], '{') == 1 && Count(lines[a], '}') == 0 && Depth(lines, a, b - 1) == 0
    ensures Balanced(View(lines)) && (forall i :: a <= i < b ==> Net(Code(lines[i])) == Net(lines[i])) ==>
      Balanced(View(out))
  {
    StockBlockIsSafe(lines, out, a, b);
    if forall i :: a <= i < b ==> Net(Code(lines[i])) == Net(lines[i]) { NoCommentNet(lines[a..b]); }
  }
}
