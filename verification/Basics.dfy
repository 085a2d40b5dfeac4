/** What the modules share: optional values, the two deployment colours, blanks in a line of text. */
module Basics {

  datatype Option<+T> = None | Some(value: T)

  /** The two container slots of the instance (scripts/lib.sh:62-76). */
  datatype Color = Blue | Green

  /** `other_color` in scripts/lib.sh. */
  function Other(c: Color): (o: Color)
    ensures o != c
  {
    match c
    case Blue => Green
    case Green => Blue
  }

  /** `inactive_color` in scripts/lib.sh: the slot the next release goes into. */
  function Inactive(active: Option<Color>): (c: Color)
    ensures active != Some(c)
  {
    match active
    case None => Blue
    case Some(a) => Other(a)
  }

  /** `[[:space:]]` inside one line of text. */
  predicate IsBlank(c: char) { c == ' ' || c == '\t' || c == '\r' || c == '\U{0B}' || c == '\U{0C}' }

  function DropBlanks(s: string): (r: string)
    ensures |r| <= |s|
  {
    if s != "" && IsBlank(s[0]) then DropBlanks(s[1..]) else s
  }

  predicate Blanks(s: string) { forall i :: 0 <= i < |s| ==> IsBlank(s[i]) }

  lemma {:induction false} BlanksFirst(s: string, t: string)
    requires Blanks(s) && t != "" && !IsBlank(t[0])
    ensures DropBlanks(s + t) == t
  {
    if s == "" { assert s + t == t; } else {
      assert (s + t)[1..] == s[1..] + t;
      BlanksFirst(s[1..], t);
    }
  }

  /** `n` blanks are dropped, and what follows them does not begin with one. */
  lemma {:induction false} BlanksDropped(s: string) returns (n: nat)
    ensures n <= |s| && Blanks(s[..n]) && DropBlanks(s) == s[n..] && (n < |s| ==> !IsBlank(s[n]))
  {
    n := 0;
    if s != "" && IsBlank(s[0]) {
      var m := BlanksDropped(s[1..]);
      n := m + 1;
      assert s[..n] == [s[0]] + s[1..][..m];
    }
  }
}
