/** Rendering the nginx site and reading the live colour back from it
    (scripts/switch_traffic.sh:35-39, scripts/lib.sh:62-98, deploy/nginx/app.conf.template). */
module NginxConf {
  import opened Basics

  const PORT_MARK := "{{ACTIVE_PORT}}"
  const COLOR_MARK := "{{ACTIVE_COLOR}}"
  const LOOPBACK := "127.0.0.1:"

  /** APP_PORT_BLUE and APP_PORT_GREEN, in decimal. */
  datatype Ports = Ports(blue: string, green: string)

  function PortFor(ports: Ports, c: Color): string {
    match c
    case Blue => ports.blue
    case Green => ports.green
  }

  function ColorName(c: Color): string {
    match c
    case Blue => "blue"
    case Green => "green"
  }

  predicate IsDigit(c: char) { '0' <= c <= '9' }

  predicate AllDigits(s: string) { forall i :: 0 <= i < |s| ==> IsDigit(s[i]) }

  ghost predicate ValidPorts(ports: Ports) {
    && |ports.blue| > 0 && AllDigits(ports.blue)
    && |ports.green| > 0 && AllDigits(ports.green)
    && ports.blue != ports.green
  }

  predicate Occurs(mark: string, s: string, i: int) {
    0 <= i && i + |mark| <= |s| && s[i..i + |mark|] == mark
  }

  /** `sed s/mark/repl/g`. */
  function ReplaceAll(s: string, mark: string, repl: string): string
    requires |mark| > 0
  {
    if s == "" then ""
    else if Occurs(mark, s, 0) then repl + ReplaceAll(s[|mark|..], mark, repl)
    else [s[0]] + ReplaceAll(s[1..], mark, repl)
  }

  function Render(template: string, ports: Ports, c: Color): string {
    ReplaceAll(ReplaceAll(template, PORT_MARK, PortFor(ports, c)), COLOR_MARK, ColorName(c))
  }

  function TakeDigits(s: string): string {
    if s != "" && IsDigit(s[0]) then [s[0]] + TakeDigits(s[1..]) else ""
  }

  /** The port of an upstream match at the very start: `server[[:space:]]+127\.0\.0\.1:[0-9]+`. */
  function PortHere(s: string): Option<string> {
    if !("server" <= s) then None
    else
      var t := DropBlanks(s[6..]);
      if |t| == |s| - 6 || !(LOOPBACK <= t) then None
      else
        var digits := TakeDigits(t[|LOOPBACK|..]);
        if digits == "" then None else Some(digits)
  }

  /** An upstream match that starts at `i`. */
  function PortAt(s: string, i: nat): Option<string>
    requires i <= |s|
  {
    PortHere(s[i..])
  }

  /** The first match of `grep`, searched from `i`. */
  function FirstPort(s: string, i: nat): (r: Option<string>)
    requires i <= |s|
    decreases |s| - i
  {
    if PortAt(s, i).Some? then PortAt(s, i)
    else if i == |s| then None
    else FirstPort(s, i + 1)
  }

  /** `active_color` on the text of the installed file (None: no file). */
  function ActiveColor(text: Option<string>, ports: Ports): Option<Color> {
    if text.None? then None
    else
      match FirstPort(text.value, 0)
      case None => None
      case Some(p) => if p == ports.blue then Some(Blue) else if p == ports.green then Some(Green) else None
  }

  /** What the round trip needs of a template: it splits as `before`, "server", blanks, the loopback
      address, the port placeholder and `after`, so that in the rendered text no earlier position is an
      upstream match and the port is not followed by another digit. */
  ghost predicate UpstreamAt(before: string, blanks: string, after: string, template: string, ports: Ports) {
    && template == before + ("server" + blanks + LOOPBACK) + PORT_MARK + after
    && |blanks| > 0 && (forall i :: 0 <= i < |blanks| ==> IsBlank(blanks[i]))
    && forall c: Color ::
         var text := Render(template, ports, c);
         && (forall i :: 0 <= i < |Render(before, ports, c)| && i <= |text| ==> PortAt(text, i).None?)
         && (var rest := Render(after, ports, c); rest == "" || !IsDigit(rest[0]))
  }

  ghost predicate GoodTemplate(template: string, ports: Ports) {
    && ValidPorts(ports)
    && exists before, blanks, after :: UpstreamAt(before, blanks, after, template, ports)
  }

  // ---- sed and concatenation ------------------------------------------------------------------

  /** No occurrence of `mark` in `a + b` starts in `a` and ends in `b`. */
  ghost predicate NoStraddle(mark: string, a: string, b: string) {
    forall i :: 0 <= i < |a| < i + |mark| ==> !Occurs(mark, a + b, i)
  }

  lemma NoStraddleTail(mark: string, a: string, b: string, n: nat)
    requires n <= |a| && NoStraddle(mark, a, b)
    ensures NoStraddle(mark, a[n..], b)
  {
    assert (a + b)[n..] == a[n..] + b;
    forall i | 0 <= i < |a[n..]| < i + |mark| ensures !Occurs(mark, a[n..] + b, i) {
      assert !Occurs(mark, a + b, i + n);
      if i + |mark| <= |a[n..] + b| {
        assert (a + b)[n..][i..i + |mark|] == (a + b)[i + n..i + n + |mark|];
      }
    }
  }

  lemma {:induction false} ReplaceConcat(a: string, b: string, mark: string, repl: string)
    requires |mark| > 0 && NoStraddle(mark, a, b)
    ensures ReplaceAll(a + b, mark, repl) == ReplaceAll(a, mark, repl) + ReplaceAll(b, mark, repl)
    decreases |a|
  {
    if a == "" {
      assert a + b == b;
    } else {
      var n := if Occurs(mark, a + b, 0) then |mark| else 1;
      assert |a| < |mark| ==> !Occurs(mark, a + b, 0);
      assert Occurs(mark, a, 0) <==> Occurs(mark, a + b, 0) by {
        if |mark| <= |a| { assert (a + b)[..|mark|] == a[..|mark|]; }
      }
      assert (a + b)[n..] == a[n..] + b;
      NoStraddleTail(mark, a, b, n);
      ReplaceConcat(a[n..], b, mark, repl);
    }
  }

  /** Text with no brace is left alone. */
  lemma {:induction false} ReplaceNothing(s: string, mark: string, repl: string)
    requires |mark| > 0 && forall i :: 0 <= i < |s| ==> s[i] != mark[0]
    ensures ReplaceAll(s, mark, repl) == s
  {
    if s != "" {
      assert |mark| <= |s| ==> s[..|mark|][0] == s[0];
      ReplaceNothing(s[1..], mark, repl);
    }
  }

  /** Neither placeholder can start before a literal without its characters and end inside it. */
  lemma NoStraddleLiteral(mark: string, a: string, lit: string, rest: string)
    requires |lit| > 0 && lit[0] !in mark
    ensures NoStraddle(mark, a, lit + rest)
  {
    forall i | 0 <= i < |a| < i + |mark|
      ensures !Occurs(mark, a + (lit + rest), i)
    {
      assert mark[|a| - i] in mark;
      if i + |mark| <= |a + (lit + rest)| {
        assert (a + (lit + rest))[i..i + |mark|][|a| - i] == lit[0];
      }
    }
  }

  lemma NoStraddleFrom(mark: string, a: string, rest: string)
    requires |mark| > 0 && forall i :: 0 <= i < |a| ==> a[i] != mark[0]
    ensures NoStraddle(mark, a, rest)
  {
    forall i | 0 <= i < |a| < i + |mark|
      ensures !Occurs(mark, a + rest, i)
    {
      if i + |mark| <= |a + rest| { assert (a + rest)[i..i + |mark|][0] == a[i]; }
    }
  }

  /** `sed` on the port line: the placeholder becomes the port and the parts around it are rewritten
      separately. */
  lemma PortMarkSplits(before: string, lit: string, after: string, port: string)
    requires |lit| > 0 && lit[0] !in PORT_MARK
    requires forall i :: 0 <= i < |lit| ==> lit[i] != '{'
    ensures ReplaceAll(before + lit + PORT_MARK + after, PORT_MARK, port)
         == ReplaceAll(before, PORT_MARK, port) + (lit + (port + ReplaceAll(after, PORT_MARK, port)))
  {
    var tail := PORT_MARK + after;
    assert before + lit + PORT_MARK + after == before + (lit + tail);
    NoStraddleLiteral(PORT_MARK, before, lit, tail);
    ReplaceConcat(before, lit + tail, PORT_MARK, port);
    NoStraddleFrom(PORT_MARK, lit, tail);
    ReplaceConcat(lit, tail, PORT_MARK, port);
    ReplaceNothing(lit, PORT_MARK, port);
    assert tail[..|PORT_MARK|] == PORT_MARK && tail[|PORT_MARK|..] == after;
    assert Occurs(PORT_MARK, tail, 0);
  }

  /** The second `sed` expression leaves the port line alone. */
  lemma ColorMarkSplits(before: string, body: string, after: string, name: string)
    requires |body| > 0 && body[0] !in COLOR_MARK
    requires forall i :: 0 <= i < |body| ==> body[i] != '{'
    ensures ReplaceAll(before + (body + after), COLOR_MARK, name)
         == ReplaceAll(before, COLOR_MARK, name) + (body + ReplaceAll(after, COLOR_MARK, name))
  {
    NoStraddleLiteral(COLOR_MARK, before, body, after);
    ReplaceConcat(before, body + after, COLOR_MARK, name);
    NoStraddleFrom(COLOR_MARK, body, after);
    ReplaceConcat(body, after, COLOR_MARK, name);
    ReplaceNothing(body, COLOR_MARK, name);
  }

  /** Rendering keeps a literal that has no brace, together with the port that follows it. */
  lemma RenderSplits(before: string, lit: string, after: string, ports: Ports, c: Color)
    requires ValidPorts(ports)
    requires |lit| > 0 && lit[0] !in PORT_MARK && lit[0] !in COLOR_MARK
    requires forall i :: 0 <= i < |lit| ==> lit[i] != '{'
    ensures Render(before + lit + PORT_MARK + after, ports, c)
         == Render(before, ports, c) + ((lit + PortFor(ports, c)) + Render(after, ports, c))
  {
    var port := PortFor(ports, c);
    PortMarkSplits(before, lit, after, port);
    var after1 := ReplaceAll(after, PORT_MARK, port);
    assert lit + (port + after1) == (lit + port) + after1;
    assert forall i :: 0 <= i < |port| ==> IsDigit(port[i]);
    ColorMarkSplits(ReplaceAll(before, PORT_MARK, port), lit + port, after1, ColorName(c));
  }

  lemma {:induction false} FirstPortFrom(s: string, i: nat, at: nat)
    requires i <= at <= |s| && PortAt(s, at).Some?
    requires forall k :: i <= k < at ==> PortAt(s, k).None?
    ensures FirstPort(s, i) == PortAt(s, at)
    decreases at - i
  {
    if i < at { FirstPortFrom(s, i + 1, at); }
  }

  lemma {:induction false} TakeAllDigits(port: string, rest: string)
    requires AllDigits(port)
    requires rest == "" || !IsDigit(rest[0])
    ensures TakeDigits(port + rest) == port
  {
    if port == "" {
      assert port + rest == rest;
    } else {
      TakeAllDigits(port[1..], rest);
      assert (port + rest)[1..] == port[1..] + rest;
    }
  }

  /** Reading a rendered upstream line gives back the port it was rendered with. */
  lemma PortOfLine(blanks: string, port: string, rest: string)
    requires |blanks| > 0 && forall i :: 0 <= i < |blanks| ==> IsBlank(blanks[i])
    requires |port| > 0 && AllDigits(port)
    requires rest == "" || !IsDigit(rest[0])
    ensures PortHere("server" + (blanks + (LOOPBACK + (port + rest)))) == Some(port)
  {
    var t := LOOPBACK + (port + rest);
    var s := "server" + (blanks + t);
    assert s[6..] == blanks + t;
    BlanksFirst(blanks, t);
    assert t[|LOOPBACK|..] == port + rest;
    TakeAllDigits(port, rest);
  }

  /** The round trip: `active_color` of the file rendered for `c` is `c`, so the slot the next release
      goes into is the other one. */
  lemma RenderRoundTrip(template: string, ports: Ports, c: Color)
    requires GoodTemplate(template, ports)
    ensures ActiveColor(Some(Render(template, ports, c)), ports) == Some(c)
    ensures Inactive(ActiveColor(Some(Render(template, ports, c)), ports)) == Other(c)
  {
    var before, blanks, after :| UpstreamAt(before, blanks, after, template, ports);
    var text, line := RenderedLine(template, ports, c, before, blanks, after);
    FirstPortFrom(text, 0, |Render(before, ports, c)|);
  }

  lemma RenderedLine(template: string, ports: Ports, c: Color, before: string, blanks: string, after: string)
    returns (text: string, line: string)
    requires ValidPorts(ports) && UpstreamAt(before, blanks, after, template, ports)
    ensures text == Render(template, ports, c) == Render(before, ports, c) + line
    ensures PortAt(text, |Render(before, ports, c)|) == Some(PortFor(ports, c))
  {
    var lit, port := "server" + blanks + LOOPBACK, PortFor(ports, c);
    text := Render(template, ports, c);
    RenderSplits(before, lit, after, ports, c);
    var pre, rest := Render(before, ports, c), Render(after, ports, c);
    line := (lit + port) + rest;
    LineShape(blanks, port, rest);
    PortOfLine(blanks, port, rest);
    assert text[|pre|..] == line;
  }

  lemma LineShape(blanks: string, port: string, rest: string)
    ensures ("server" + blanks + LOOPBACK + port) + rest == "server" + (blanks + (LOOPBACK + (port + rest)))
  {}

  // ---- what reading accepts ---------------------------------------------------------------------------

  /** The word, `n` blanks, the loopback address, and `port` as the longest run of digits. */
  ghost predicate PortShape(s: string, n: nat, port: string) {
    && "server" <= s && 1 <= n <= |s| - 6 && Blanks(s[6..6 + n])
    && (LOOPBACK + port) <= s[6 + n..] && port != "" && AllDigits(port)
    && var rest := s[6 + n..][|LOOPBACK + port|..]; rest == "" || !IsDigit(rest[0])
  }

  lemma {:induction false} DigitsTaken(s: string)
    ensures TakeDigits(s) <= s && AllDigits(TakeDigits(s))
    ensures var rest := s[|TakeDigits(s)|..]; rest == "" || !IsDigit(rest[0])
  {
    if s != "" && IsDigit(s[0]) { DigitsTaken(s[1..]); }
  }

  lemma PortHereIff(s: string, port: string)
    ensures PortHere(s) == Some(port) <==> exists n: nat :: PortShape(s, n, port)
  {
    if PortHere(s) == Some(port) {
      var n := ShapeOfPort(s, port);
    }
    if n: nat :| PortShape(s, n, port) { PortOfShape(s, n, port); }
  }

  lemma ShapeOfPort(s: string, port: string) returns (n: nat)
    requires PortHere(s) == Some(port)
    ensures PortShape(s, n, port)
  {
    n := BlanksDropped(s[6..]);
    var t := s[6..][n..];
    assert t == s[6 + n..] && s[6..][..n] == s[6..6 + n];
    DigitsTaken(t[|LOOPBACK|..]);
    PortSplits(t, port);
  }

  lemma PortOfShape(s: string, n: nat, port: string)
    requires PortShape(s, n, port)
    ensures PortHere(s) == Some(port)
  {
    var blanks, t := s[6..6 + n], s[6 + n..];
    var rest := t[|LOOPBACK + port|..];
    assert t == LOOPBACK + (port + rest);
    assert s[6..] == blanks + t;
    assert s == "server" + (blanks + t) by { assert s == s[..6] + s[6..]; }
    PortOfLine(blanks, port, rest);
  }

  lemma PortSplits(t: string, port: string)
    requires LOOPBACK <= t && port <= t[|LOOPBACK|..]
    ensures LOOPBACK + port <= t && t[|LOOPBACK + port|..] == t[|LOOPBACK|..][|port|..]
  {
  }

  /** The leftmost match in `s` starts at `at` and has the port `port`. */
  ghost predicate Leftmost(s: string, at: nat, port: string) {
    && at <= |s| && (exists n: nat :: PortShape(s[at..], n, port))
    && forall k: nat, n: nat, p: string | k < at :: !PortShape(s[k..], n, p)
  }

  lemma {:induction false} FirstPortFound(s: string, i: nat) returns (at: nat)
    requires i <= |s| && FirstPort(s, i).Some?
    ensures i <= at <= |s| && FirstPort(s, i) == PortAt(s, at) && forall k :: i <= k < at ==> PortAt(s, k).None?
    decreases |s| - i
  {
    if PortAt(s, i).Some? { at := i; } else { at := FirstPortFound(s, i + 1); }
  }

  /** The live colour read from a file is `c` exactly when the port of its leftmost upstream match is that of `c`: a
      file without a match, or with a foreign port in the first one, has none. */
  lemma ActiveColorIff(text: string, ports: Ports, c: Color)
    requires ports.blue != ports.green
    ensures var port := if c.Blue? then ports.blue else ports.green;
      ActiveColor(Some(text), ports) == Some(c) <==> exists at: nat :: Leftmost(text, at, port)
  {
    var port := if c.Blue? then ports.blue else ports.green;
    if ActiveColor(Some(text), ports) == Some(c) {
      var at := FirstPortFound(text, 0);
      PortHereIff(text[at..], port);
      forall k: nat, n: nat, p: string | k < at ensures !PortShape(text[k..], n, p) {
        assert PortAt(text, k).None?;
        PortHereIff(text[k..], p);
      }
      assert Leftmost(text, at, port);
    }
    if at: nat :| Leftmost(text, at, port) {
      PortHereIff(text[at..], port);
      forall k: nat | k < at ensures PortAt(text, k).None? {
        if PortAt(text, k).Some? {
          PortHereIff(text[k..], PortAt(text, k).value);
          assert false;
        }
      }
      FirstPortFrom(text, 0, at);
    }
  }

  // ---- a test on the template ---------------------------------------------------------------------

  lemma KeepsFirst(s: string, mark: string, repl: string)
    requires |mark| > 0 && s != "" && s[0] != mark[0]
    ensures ReplaceAll(s, mark, repl) != "" && ReplaceAll(s, mark, repl)[0] == s[0]
  {
    assert |mark| <= |s| ==> s[..|mark|][0] == s[0];
  }

  /** The word cannot end inside another occurrence of itself, so none starts before one that follows. */
  lemma NoEarlierServer(pre: string, line: string, i: nat)
    requires i < |pre| && "server" <= line && !Occurs("server", pre, i)
    ensures PortAt(pre + line, i).None?
  {
    var text, k := pre + line, |pre| - i;
    assert k >= 6 ==> text[i..][..6] == pre[i..i + 6];
    assert text[i..][k] == line[0] == 's';
  }

  /** A template is good when, once rendered, the word "server" does not occur above the upstream line and
      a character that is neither a digit nor a brace follows the placeholder. */
  lemma FirstServerLineIsGood(before: string, blanks: string, after: string, ports: Ports)
    requires ValidPorts(ports)
    requires |blanks| > 0 && forall i :: 0 <= i < |blanks| ==> IsBlank(blanks[i])
    requires forall c: Color, i :: 0 <= i < |Render(before, ports, c)| ==> !Occurs("server", Render(before, ports, c), i)
    requires after == "" || (!IsDigit(after[0]) && after[0] != '{')
    ensures GoodTemplate(before + ("server" + blanks + LOOPBACK) + PORT_MARK + after, ports)
  {
    var lit := "server" + blanks + LOOPBACK;
    var template := before + lit + PORT_MARK + after;
    forall c: Color
      ensures var text := Render(template, ports, c);
        && (forall i :: 0 <= i < |Render(before, ports, c)| && i <= |text| ==> PortAt(text, i).None?)
        && (var rest := Render(after, ports, c); rest == "" || !IsDigit(rest[0]))
    {
      RenderSplits(before, lit, after, ports, c);
      var pre, line := Render(before, ports, c), (lit + PortFor(ports, c)) + Render(after, ports, c);
      forall i | 0 <= i < |pre| ensures PortAt(pre + line, i).None? { NoEarlierServer(pre, line, i); }
      RestStarts(after, ports, c);
    }
    assert UpstreamAt(before, blanks, after, template, ports);
  }

  lemma RestStarts(after: string, ports: Ports, c: Color)
    requires after == "" || (!IsDigit(after[0]) && after[0] != '{')
    ensures var rest := Render(after, ports, c); rest == "" || !IsDigit(rest[0])
  {
    if after != "" {
      KeepsFirst(after, PORT_MARK, PortFor(ports, c));
      KeepsFirst(ReplaceAll(after, PORT_MARK, PortFor(ports, c)), COLOR_MARK, ColorName(c));
    }
  }

  // ---- the whole file ---------------------------------------------------------------------------------

  datatype Piece = Literal(text: string) | PortSlot | ColorSlot

  function Source(p: Piece): string {
    match p
    case Literal(text) => text
    case PortSlot => PORT_MARK
    case ColorSlot => COLOR_MARK
  }

  function Template(ps: seq<Piece>): string { if ps == [] then "" else Source(ps[0]) + Template(ps[1..]) }

  /** The text of the pieces with every slot filled. */
  function Filled(ps: seq<Piece>, port: string, color: string): string {
    if ps == [] then ""
    else
      (match ps[0] case Literal(text) => text case PortSlot => port case ColorSlot => color)
      + Filled(ps[1..], port, color)
  }

  /** No two opening braces in a row, and none at the end. */
  ghost predicate Tame(s: string) {
    && (forall i :: 0 <= i < |s| - 1 ==> s[i] != '{' || s[i + 1] != '{')
    && (s == "" || s[|s| - 1] != '{')
  }

  ghost predicate AllTame(ps: seq<Piece>) { forall i :: 0 <= i < |ps| ==> ps[i].Literal? ==> Tame(ps[i].text) }

  /** The pieces after the first `sed` expression. */
  function WithPort(ps: seq<Piece>, port: string): seq<Piece> {
    seq(|ps|, i requires 0 <= i < |ps| => if ps[i].PortSlot? then Literal(port) else ps[i])
  }

  /** A tame literal meets no placeholder, neither inside nor across its end. */
  lemma {:induction false} TameStays(a: string, rest: string, mark: string, repl: string)
    requires Tame(a) && |mark| >= 2 && mark[0] == mark[1] == '{'
    ensures ReplaceAll(a + rest, mark, repl) == a + ReplaceAll(rest, mark, repl)
  {
    if a == "" {
      assert a + rest == rest;
    } else {
      var s := a + rest;
      assert s[1..] == a[1..] + rest;
      assert |mark| <= |s| ==> s[..|mark|][0] == s[0] && s[..|mark|][1] == s[1];
      TameStays(a[1..], rest, mark, repl);
    }
  }

  lemma SlotFilled(mark: string, rest: string, repl: string)
    requires |mark| > 0
    ensures ReplaceAll(mark + rest, mark, repl) == repl + ReplaceAll(rest, mark, repl)
  {
    var s := mark + rest;
    assert s[..|mark|] == mark && s[|mark|..] == rest;
  }

  /** A text that differs from the placeholder in some position does not begin with it. */
  lemma NotThere(s: string, mark: string, repl: string, i: nat)
    requires s != "" && i < |mark| && (i < |s| ==> s[i] != mark[i])
    ensures ReplaceAll(s, mark, repl) == [s[0]] + ReplaceAll(s[1..], mark, repl)
  {
    assert |mark| <= |s| ==> s[..|mark|][i] == s[i];
  }

  /** The first expression leaves the other placeholder alone. */
  lemma ColorSlotStays(rest: string, port: string)
    ensures ReplaceAll(COLOR_MARK + rest, PORT_MARK, port) == COLOR_MARK + ReplaceAll(rest, PORT_MARK, port)
  {
    var s, tail := COLOR_MARK + rest, COLOR_MARK[2..];
    NotThere(s, PORT_MARK, port, 9);
    NotThere(s[1..], PORT_MARK, port, 1);
    assert s[1..][1..] == tail + rest;
    ColorTail(tail, rest, port);
    assert COLOR_MARK == ['{'] + (['{'] + tail);
  }

  lemma ColorTail(tail: string, rest: string, port: string)
    requires tail == COLOR_MARK[2..]
    ensures ReplaceAll(tail + rest, PORT_MARK, port) == tail + ReplaceAll(rest, PORT_MARK, port)
  {
    assert forall i :: 0 <= i < |tail| ==> tail[i] == COLOR_MARK[i + 2] != '{';
    TameStays(tail, rest, PORT_MARK, port);
  }

  lemma {:induction false} PortPass(ps: seq<Piece>, port: string)
    requires AllTame(ps)
    ensures ReplaceAll(Template(ps), PORT_MARK, port) == Template(WithPort(ps, port))
  {
    if ps != [] {
      PortPass(ps[1..], port);
      assert WithPort(ps, port)[1..] == WithPort(ps[1..], port);
      PortPiece(ps[0], Template(ps[1..]), port);
    }
  }

  lemma PortPiece(p: Piece, rest: string, port: string)
    requires p.Literal? ==> Tame(p.text)
    ensures ReplaceAll(Source(p) + rest, PORT_MARK, port)
         == Source(if p.PortSlot? then Literal(port) else p) + ReplaceAll(rest, PORT_MARK, port)
  {
    match p
    case Literal(text) => TameStays(text, rest, PORT_MARK, port);
    case PortSlot => SlotFilled(PORT_MARK, rest, port);
    case ColorSlot => ColorSlotStays(rest, port);
  }

  lemma {:induction false} ColorPass(ps: seq<Piece>, port: string, color: string)
    requires AllTame(ps) && Tame(port)
    ensures ReplaceAll(Template(WithPort(ps, port)), COLOR_MARK, color) == Filled(ps, port, color)
  {
    if ps != [] {
      var rest := Template(WithPort(ps[1..], port));
      ColorPass(ps[1..], port, color);
      assert WithPort(ps, port)[1..] == WithPort(ps[1..], port);
      match ps[0]
      case Literal(text) => TameStays(text, rest, COLOR_MARK, color);
      case PortSlot => TameStays(port, rest, COLOR_MARK, color);
      case ColorSlot => SlotFilled(COLOR_MARK, rest, color);
    }
  }

  /** Rendering fills every port and every colour placeholder, with the colour in words, and changes nothing
      else: the X-Served-By header names the colour whose port is proxied to. */
  lemma RenderFills(ps: seq<Piece>, ports: Ports)
    requires AllTame(ps) && ValidPorts(ports)
    ensures Render(Template(ps), ports, Blue) == Filled(ps, ports.blue, "blue")
    ensures Render(Template(ps), ports, Green) == Filled(ps, ports.green, "green")
  {
    PortPass(ps, ports.blue);
    PortPass(ps, ports.green);
    ColorPass(ps, ports.blue, "blue");
    ColorPass(ps, ports.green, "green");
  }
}
