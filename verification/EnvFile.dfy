/** The `.env` file on its way to the instance: the filter that keeps laptop-only settings at home, and
    the parser that reads what arrives (deploy/sync_scripts.py:83-98, scripts/lib.sh:21-40). */
module EnvFile {
  import opened Basics

  const STRIP: set<string> := {
    "AWS_PROFILE", "AWS_ACCESS_KEY_ID", "AWS_SECRET_ACCESS_KEY", "AWS_SESSION_TOKEN", "EC2_KEY_PATH", "EC2_HOST"
  }
  const NOTE := " removed by sync_scripts.py" + " - laptop-only setting"

  // ---- lines ----------------------------------------------------------------------------------------

  /** Where Python's `splitlines` breaks. */
  predicate IsBreak(c: char) {
    c == '\n' || c == '\r' || c == '\U{0B}' || c == '\U{0C}' || '\U{1C}' <= c <= '\U{1E}'
    || c == '\U{85}' || c == '\U{2028}' || c == '\U{2029}'
  }

  /** What Python's `strip` removes. */
  predicate IsPySpace(c: char) {
    IsBreak(c) || c == ' ' || c == '\t' || c == '\U{1F}' || c == '\U{A0}' || c == '\U{1680}'
    || '\U{2000}' <= c <= '\U{200A}' || c == '\U{202F}' || c == '\U{205F}' || c == '\U{3000}'
  }

  function FirstBreak(s: string): (n: nat)
    ensures n <= |s| && (n < |s| ==> IsBreak(s[n])) && forall i :: 0 <= i < n ==> !IsBreak(s[i])
  {
    if s == "" || IsBreak(s[0]) then 0
    else
      var n := FirstBreak(s[1..]);
      assert forall i :: 0 < i <= n ==> s[i] == s[1..][i - 1];
      1 + n
  }

  function First(s: string, c: char): (n: nat)
    ensures n <= |s| && (n < |s| ==> s[n] == c) && forall i :: 0 <= i < n ==> s[i] != c
  {
    if s == "" || s[0] == c then 0 else 1 + First(s[1..], c)
  }

  /** What follows the break at `n`; CRLF is one break. */
  function AfterBreak(text: string, n: nat): (r: string)
    requires n < |text|
    ensures |r| < |text|
  {
    text[n + (if text[n] == '\r' && n + 1 < |text| && text[n + 1] == '\n' then 2 else 1)..]
  }

  /** `read_text().splitlines()`. */
  function PyLines(text: string): seq<string> {
    if text == "" then []
    else
      var n := FirstBreak(text);
      if n == |text| then [text]
      else [text[..n]] + PyLines(AfterBreak(text, n))
  }

  /** The pieces the `read` loop of `load_env` sees, before `read` drops NULs. A last piece of NULs alone ends the
      loop, and sets nothing here either. */
  function ShLines(text: string): seq<string> {
    if text == "" then []
    else
      var n := First(text, '\n');
      if n == |text| then [text] else [text[..n]] + ShLines(text[n + 1..])
  }

  function DropCr(line: string): string {
    if line != "" && line[|line| - 1] == '\r' then line[..|line| - 1] else line
  }

  /** `read` ignores NUL characters. */
  function DropNul(s: string): string {
    if s == "" then "" else if s[0] == '\0' then DropNul(s[1..]) else [s[0]] + DropNul(s[1..])
  }

  /** What is in the variable `line` after lib.sh:29. */
  function Heard(line: string): string { DropCr(DropNul(line)) }

  // ---- the filter -----------------------------------------------------------------------------------

  function TrimLeft(s: string): string { if s != "" && IsPySpace(s[0]) then TrimLeft(s[1..]) else s }

  function TrimRight(s: string): string {
    if s != "" && IsPySpace(s[|s| - 1]) then TrimRight(s[..|s| - 1]) else s
  }

  function Trim(s: string): string { TrimRight(TrimLeft(s)) }

  function RawKey(line: string): string { line[..First(line, '=')] }

  /** The key as the filter sees it; "" without an equals sign. */
  function PyKey(line: string): string { if '=' in line then Trim(RawKey(line)) else "" }

  predicate Dropped(line: string) { PyKey(line) in STRIP }

  function FilterLine(line: string): string { if Dropped(line) then "# " + PyKey(line) + NOTE else line }

  function FilterLines(lines: seq<string>): seq<string> {
    if lines == [] then [] else FilterLines(lines[..|lines| - 1]) + [FilterLine(lines[|lines| - 1])]
  }

  function RemovedKeys(lines: seq<string>): seq<string> {
    if lines == [] then []
    else
      var last := lines[|lines| - 1];
      RemovedKeys(lines[..|lines| - 1]) + (if Dropped(last) then [PyKey(last)] else [])
  }

  /** Every line with its newline. */
  function Joined(lines: seq<string>): string {
    if lines == [] then "" else lines[0] + "\n" + Joined(lines[1..])
  }

  function Body(kept: seq<string>): string { if kept == [] then "\n" else Joined(kept) }

  function Shipped(text: string): string { Body(FilterLines(PyLines(text))) }

  /** The filter loop: the text for the instance and the keys it reports. */
  method FilterEnv(text: string) returns (body: string, removed: seq<string>)
    ensures body == Shipped(text) && removed == RemovedKeys(PyLines(text))
  {
    var lines := PyLines(text);
    var kept: seq<string> := [];
    removed := [];
    for i := 0 to |lines|
      invariant kept == FilterLines(lines[..i]) && removed == RemovedKeys(lines[..i])
    {
      assert lines[..i + 1][..i] == lines[..i];
      var key := PyKey(lines[i]);
      if key in STRIP {
        removed := removed + [key];
        kept := kept + ["# " + key + NOTE];
      } else {
        kept := kept + [lines[i]];
      }
    }
    assert lines[..|lines|] == lines;
    body := Body(kept);
  }

  // ---- the parser -----------------------------------------------------------------------------------

  predicate IsNameStart(c: char) { 'A' <= c <= 'Z' || 'a' <= c <= 'z' || c == '_' }
  predicate IsNameChar(c: char) { IsNameStart(c) || '0' <= c <= '9' }

  predicate AllNameChars(s: string) { forall i :: 0 <= i < |s| ==> IsNameChar(s[i]) }

  predicate ValidName(s: string) { s != "" && IsNameStart(s[0]) && AllNameChars(s) }

  predicate Squeezed(c: char) { IsBlank(c) || c == '\n' }

  /** `tr -d '[:space:]'`. */
  function Squeeze(s: string): string {
    if s == "" then "" else if Squeezed(s[0]) then Squeeze(s[1..]) else [s[0]] + Squeeze(s[1..])
  }

  function Chop(s: string, c: char): string {
    if s != "" && s[|s| - 1] == c then s[..|s| - 1] else s
  }

  function Behead(s: string, c: char): string { if s != "" && s[0] == c then s[1..] else s }

  function Value(line: string): string
    requires '=' in line
  {
    Behead(Chop(Behead(Chop(line[First(line, '=') + 1..], '\"'), '\"'), '\''), '\'')
  }

  predicate Comment(line: string) { var s := DropBlanks(line); s != "" && s[0] == '#' }

  /** What a line asks of `export`; a name that ends in a plus sign appends to the variable. */
  datatype Setting = Skip | Bad | Set(name: string, value: string, append: bool)

  function SettingOf(key: string, value: string): Setting {
    if ValidName(key) then Set(key, value, false)
    else if key != "" && key[|key| - 1] == '+' && ValidName(key[..|key| - 1]) then Set(key[..|key| - 1], value, true)
    else Bad
  }

  /** A line without NULs and carriage return. */
  function Parse(line: string): Setting {
    if line == "" || Comment(line) || '=' !in line then Skip
    else SettingOf(Squeeze(RawKey(line)), Value(line))
  }

  function Means(line: string): Setting { Parse(Heard(line)) }

  type Env = map<string, string>

  function Export(env: Env, s: Setting): Env
    requires s.Set?
  {
    env[s.name := (if s.append && s.name in env then env[s.name] else "") + s.value]
  }

  /** `export` refuses a bad name; that aborts the script, except where lib.sh loads the file itself and
      ignores failures. */
  function Apply(strict: bool, env: Env, s: Setting): Option<Env> {
    match s
    case Skip => Some(env)
    case Bad => if strict then None else Some(env)
    case Set(_, _, _) => Some(Export(env, s))
  }

  function Replay(strict: bool, env: Env, settings: seq<Setting>): Option<Env> {
    if settings == [] then Some(env)
    else
      match Replay(strict, env, settings[..|settings| - 1])
      case None => None
      case Some(e) => Apply(strict, e, settings[|settings| - 1])
  }

  function Settings(lines: seq<string>): seq<Setting> {
    seq(|lines|, i requires 0 <= i < |lines| => Means(lines[i]))
  }

  function Load(strict: bool, env: Env, text: string): Option<Env> { Replay(strict, env, Settings(ShLines(text))) }

  /** `load_env` on the environment of a script; None when it aborts. */
  method LoadEnv(strict: bool, before: Env, text: string) returns (env: Option<Env>)
    ensures env == Load(strict, before, text)
  {
    var lines := ShLines(text);
    ghost var settings := Settings(lines);
    var vars := before;
    for i := 0 to |lines|
      invariant Replay(strict, before, settings[..i]) == Some(vars)
    {
      ReplayNext(strict, before, settings, i);
      var s := ReadLine(Heard(lines[i]));
      if s.Set? { vars := Export(vars, s); }
      if s.Bad? && strict {
        AbortSticks(strict, before, settings, i + 1);
        return None;
      }
    }
    assert settings[..|lines|] == settings;
    env := Some(vars);
  }

  /** One pass of the loop: what the line exports. */
  method ReadLine(line: string) returns (s: Setting)
    ensures s == Parse(line)
  {
    if line == "" || Comment(line) { return Skip; }
    if '=' !in line { return Skip; }
    var eq := First(line, '=');
    var key, value := line[..eq], line[eq + 1..];
    key := Squeeze(key);
    value := Behead(Chop(value, '\"'), '\"');
    value := Behead(Chop(value, '\''), '\'');
    s := SettingOf(key, value);
  }

  lemma ReplayNext(strict: bool, env: Env, settings: seq<Setting>, i: nat)
    requires i < |settings| && Replay(strict, env, settings[..i]).Some?
    ensures Replay(strict, env, settings[..i + 1]) == Apply(strict, Replay(strict, env, settings[..i]).value, settings[i])
  {
    assert settings[..i + 1][..i] == settings[..i];
  }

  lemma {:induction false} AbortSticks(strict: bool, env: Env, settings: seq<Setting>, i: nat)
    requires i <= |settings| && Replay(strict, env, settings[..i]).None?
    ensures Replay(strict, env, settings).None?
    decreases |settings|
  {
    if i < |settings| {
      assert settings[..|settings| - 1][..i] == settings[..i];
      AbortSticks(strict, env, settings[..|settings| - 1], i);
    } else {
      assert settings[..i] == settings;
    }
  }

  // ---- both sides see the same lines -------------------------------------------------------------------

  /** LF or CRLF endings, and none of the other characters Python breaks lines at. */
  ghost predicate Ordinary(text: string) { forall i :: 0 <= i < |text| ==> OrdinaryAt(text, i) }

  ghost predicate OrdinaryAt(text: string, i: int)
    requires 0 <= i < |text|
  {
    IsBreak(text[i]) ==> text[i] == '\n' || (text[i] == '\r' && (i == |text| - 1 || text[i + 1] == '\n'))
  }

  /** `py` are the lines of `sh` without their carriage returns. */
  ghost predicate SameButCr(py: seq<string>, sh: seq<string>) {
    |py| == |sh| && forall i :: 0 <= i < |sh| ==> py[i] == DropCr(sh[i])
  }

  lemma OrdinarySuffix(text: string, k: nat)
    requires Ordinary(text) && k <= |text|
    ensures Ordinary(text[k..])
  {
    var rest := text[k..];
    forall i | 0 <= i < |rest| ensures OrdinaryAt(rest, i) {
      assert OrdinaryAt(text, k + i);
    }
  }

  lemma SameCons(x: string, xs: seq<string>, y: string, ys: seq<string>)
    requires x == DropCr(y) && SameButCr(xs, ys)
    ensures SameButCr([x] + xs, [y] + ys)
  {
  }

  lemma {:induction false} SameLines(text: string)
    requires Ordinary(text)
    ensures SameButCr(PyLines(text), ShLines(text))
    decreases |text|
  {
    if text != "" {
      var n := FirstLine(text);
      var py, sh := [], [];
      if n < |text| {
        OrdinarySuffix(text, n + 1);
        SameLines(text[n + 1..]);
        py, sh := PyLines(text[n + 1..]), ShLines(text[n + 1..]);
      }
      SameCons(text[..FirstBreak(text)], py, text[..n], sh);
    }
  }

  /** Both sides cut the same first line off. */
  lemma FirstLine(text: string) returns (n: nat)
    requires Ordinary(text) && text != ""
    ensures n <= |text| && text[..FirstBreak(text)] == DropCr(text[..n])
    ensures PyLines(text) == [text[..FirstBreak(text)]] + (if n < |text| then PyLines(text[n + 1..]) else [])
    ensures ShLines(text) == [text[..n]] + (if n < |text| then ShLines(text[n + 1..]) else [])
  {
    n := First(text, '\n');
    BreakIsNewline(text, n, FirstBreak(text));
    CutLine(text, n, FirstBreak(text));
    NextLine(text, n, FirstBreak(text));
    assert n == |text| ==> text[..n] == text;
  }

  /** The first break is the first newline, or the carriage return before it. */
  lemma BreakIsNewline(text: string, n: nat, m: nat)
    requires Ordinary(text) && n == First(text, '\n') && m == FirstBreak(text)
    ensures m == n || (m == n - 1 && text[m] == '\r')
  {
    assert m <= n by { assert n < |text| ==> IsBreak(text[n]); }
    if m < n {
      assert OrdinaryAt(text, m) && text[m] != '\n';
      assert m < |text| - 1 ==> text[m + 1] == '\n';
    }
  }

  lemma CutLine(text: string, n: nat, m: nat)
    requires n <= |text| && (m == n || (m == n - 1 && text[m] == '\r'))
    requires m == n > 0 ==> text[n - 1] != '\r'
    ensures DropCr(text[..n]) == text[..m]
  {
  }

  lemma NextLine(text: string, n: nat, m: nat)
    requires text != "" && n == First(text, '\n') && m == FirstBreak(text)
    requires m == n || (m == n - 1 && text[m] == '\r')
    ensures PyLines(text) == [text[..m]] + (if n < |text| then PyLines(text[n + 1..]) else [])
  {
    if m < |text| { AfterLine(text, n, m); }
    assert m == |text| ==> text[..m] == text;
  }

  lemma AfterLine(text: string, n: nat, m: nat)
    requires n == First(text, '\n') && m < |text| && (m == n || (m == n - 1 && text[m] == '\r'))
    ensures AfterBreak(text, m) == if n < |text| then text[n + 1..] else ""
  {
  }

  ghost predicate Unbroken(lines: seq<string>) {
    forall i :: 0 <= i < |lines| ==> FirstBreak(lines[i]) == |lines[i]|
  }

  lemma {:induction false} PyLinesUnbroken(text: string)
    ensures Unbroken(PyLines(text))
    decreases |text|
  {
    if text != "" {
      var n := FirstBreak(text);
      Unbreakable(text[..n]);
      if n < |text| {
        PyLinesUnbroken(AfterBreak(text, n));
        UnbrokenCons(text[..n], PyLines(AfterBreak(text, n)));
      } else {
        assert text[..n] == text;
        UnbrokenCons(text, []);
      }
    }
  }

  lemma UnbrokenCons(x: string, xs: seq<string>)
    requires FirstBreak(x) == |x| && Unbroken(xs)
    ensures Unbroken([x] + xs) && [x] + [] == [x]
  {
  }

  lemma FirstAfter(head: string, c: char, rest: string, text: string)
    requires c !in head && text == head + [c] + rest
    ensures First(text, c) == |head| && text[..|head|] == head && text[|head| + 1..] == rest
  {
    assert text[|head|] == c && forall i :: 0 <= i < |head| ==> text[i] == head[i];
  }

  lemma {:induction false} ReadBack(lines: seq<string>)
    requires forall i :: 0 <= i < |lines| ==> '\n' !in lines[i]
    ensures ShLines(Joined(lines)) == lines
  {
    if lines != [] {
      var rest := Joined(lines[1..]);
      FirstAfter(lines[0], '\n', rest, Joined(lines));
      ReadBack(lines[1..]);
    }
  }

  // ---- one line ---------------------------------------------------------------------------------------

  lemma StripIsPlain(k: string)
    requires k in STRIP
    ensures ValidName(k)
  {
  }

  /** Characters of a name that the parser never sees. */
  predicate Hidden(c: char) { Squeezed(c) || c == '\0' }

  function Bare(s: string): string {
    if s == "" then "" else if Hidden(s[0]) then Bare(s[1..]) else [s[0]] + Bare(s[1..])
  }

  /** The parser removes them in two steps. */
  lemma {:induction false} BareInTwoSteps(s: string)
    ensures Bare(s) == Squeeze(DropNul(s))
  {
    if s != "" {
      BareInTwoSteps(s[1..]);
      assert ([s[0]] + DropNul(s[1..]))[1..] == DropNul(s[1..]);
    }
  }

  lemma {:induction false} PlainChars(s: string)
    requires AllNameChars(s)
    ensures Bare(s) == s && FirstBreak(s) == |s|
    ensures forall i :: 0 <= i < |s| ==> IsNameChar(s[i])
  {
    if s != "" { PlainChars(s[1..]); }
  }

  lemma CommentSetsNothing(line: string)
    requires line != "" && line[0] == '#'
    ensures Means(line) == Skip
  {
    assert DropNul(line)[0] == '#';
    assert Heard(line) != "" && Heard(line)[0] == '#';
  }

  lemma Unbreakable(s: string)
    ensures FirstBreak(s) == |s| <==> forall i :: 0 <= i < |s| ==> !IsBreak(s[i])
  {
  }

  lemma ConcatUnbroken(s: string, t: string)
    requires FirstBreak(s) == |s| && FirstBreak(t) == |t|
    ensures FirstBreak(s + t) == |s + t|
  {
    Unbreakable(s + t);
  }

  lemma NotePart(s: string)
    requires s == " removed by sync_scripts.py" || s == " - laptop-only setting"
    ensures forall c :: c in s ==> ' ' <= c <= '~'
  {
  }

  lemma NoteIsUnbroken(s: string, t: string)
    requires s == " removed by sync_scripts.py" && t == " - laptop-only setting"
    ensures FirstBreak(s + t) == |s + t|
  {
    NotePart(s);
    NotePart(t);
    assert forall i :: 0 <= i < |s + t| ==> (s + t)[i] in s || (s + t)[i] in t;
    Unbreakable(s + t);
  }

  /** What replaces a dropped line sets nothing and stays on one line. */
  lemma DroppedSetsNothing(line: string)
    requires Dropped(line)
    ensures Means(FilterLine(line)) == Skip
    ensures FirstBreak(FilterLine(line)) == |FilterLine(line)|
  {
    var k := PyKey(line);
    StripIsPlain(k);
    PlainChars(k);
    ConcatUnbroken("# ", k);
    NoteIsUnbroken(" removed by sync_scripts.py", " - laptop-only setting");
    ConcatUnbroken("# " + k, NOTE);
    CommentSetsNothing("# " + k + NOTE);
  }

  lemma {:induction false} BareConcat(s: string, t: string)
    ensures Bare(s + t) == Bare(s) + Bare(t)
  {
    if s != "" {
      assert (s + t)[1..] == s[1..] + t;
      BareConcat(s[1..], t);
    } else {
      assert s + t == t;
    }
  }

  /** The characters of names and of the append sign. */
  ghost predicate Plain(s: string) { forall i :: 0 <= i < |s| ==> IsNameChar(s[i]) || s[i] == '+' }

  lemma FirstSurvives(s: string)
    requires s != "" && !Hidden(s[0])
    ensures Bare(s) != "" && Bare(s)[0] == s[0]
  {
  }

  lemma LastSurvives(front: string, c: char)
    ensures Bare(front + [c]) == if Hidden(c) then Bare(front) else Bare(front) + [c]
  {
    BareConcat(front, [c]);
    assert Bare([c][1..]) == "" && Bare(front) + "" == Bare(front);
  }

  lemma {:induction false} TrimLeftBares(s: string)
    requires Plain(Bare(s))
    ensures Bare(TrimLeft(s)) == Bare(s)
  {
    if s != "" && IsPySpace(s[0]) {
      if !Hidden(s[0]) { FirstSurvives(s); }
      TrimLeftBares(s[1..]);
    }
  }

  lemma {:induction false} TrimRightBares(s: string)
    requires Plain(Bare(s))
    ensures Bare(TrimRight(s)) == Bare(s)
  {
    if s != "" && IsPySpace(s[|s| - 1]) {
      var front, c := s[..|s| - 1], s[|s| - 1];
      assert s == front + [c];
      LastSurvives(front, c);
      PlainEnd(Bare(front), c);
      TrimRightBares(front);
    }
  }

  lemma PlainEnd(s: string, c: char)
    requires IsPySpace(c)
    ensures !Plain(s + [c])
  {
    assert (s + [c])[|s|] == c;
  }

  lemma SettingSpells(key: string, value: string)
    requires SettingOf(key, value).Set?
    ensures var s := SettingOf(key, value); ValidName(s.name) && key == s.name + (if s.append then "+" else "")
  {
  }

  lemma {:induction false} NulConcat(s: string, t: string)
    ensures DropNul(s + t) == DropNul(s) + DropNul(t)
  {
    if s != "" {
      assert (s + t)[1..] == s[1..] + t;
      NulConcat(s[1..], t);
    } else {
      assert s + t == t;
    }
  }

  lemma {:induction false} NulMembers(s: string, c: char)
    ensures c in DropNul(s) <==> c in s && c != '\0'
  {
    if s != "" { NulMembers(s[1..], c); }
  }

  /** An unbroken line has no carriage return to drop. */
  lemma HeardLine(line: string)
    requires FirstBreak(line) == |line|
    ensures Heard(line) == DropNul(line) && DropCr(line) == line && '\n' !in line
  {
    NulMembers(line, '\r');
  }

  /** Dropping NULs commutes with cutting at the equals sign. */
  lemma KeyOfHeard(line: string)
    requires '=' in line
    ensures '=' in DropNul(line) && RawKey(DropNul(line)) == DropNul(RawKey(line))
  {
    var n := First(line, '=');
    var key, rest := line[..n], line[n + 1..];
    assert line == key + ([line[n]] + rest);
    NulConcat(key, [line[n]] + rest);
    assert ([line[n]] + rest)[1..] == rest;
    NulMembers(key, '=');
    FirstAfter(DropNul(key), '=', DropNul(rest), DropNul(line));
    NulMembers(line, '=');
  }

  /** For a line that sets a variable, the filter and the parser disagree on the name only by hidden characters
      inside it. */
  lemma SameSpelling(line: string)
    requires Means(line).Set? && FirstBreak(line) == |line|
    ensures Bare(PyKey(line)) == Means(line).name + (if Means(line).append then "+" else "")
    ensures ValidName(Means(line).name)
  {
    var heard := Heard(line);
    HeardLine(line);
    NulMembers(line, '=');
    KeyOfHeard(line);
    SettingSpells(Squeeze(RawKey(heard)), Value(heard));
    BareInTwoSteps(RawKey(line));
    TrimLeftBares(RawKey(line));
    TrimRightBares(TrimLeft(RawKey(line)));
  }

  ghost predicate HasHidden(s: string) { exists i :: 0 <= i < |s| && Hidden(s[i]) }

  lemma {:induction false} BareIffHidden(s: string)
    ensures |Bare(s)| <= |s|
    ensures Bare(s) == s <==> !HasHidden(s)
  {
    if s != "" {
      BareIffHidden(s[1..]);
      assert forall i :: 0 < i < |s| ==> s[i] == s[1..][i - 1];
      assert s == [s[0]] + s[1..];
      if HasHidden(s[1..]) {
        var i :| 0 <= i < |s[1..]| && Hidden(s[1..][i]);
        assert Hidden(s[i + 1]);
      }
    }
  }

  /** What the filter makes of a key that the parser reads as `name`, perhaps with a plus sign. */
  lemma Spellings(key: string, name: string, append: bool)
    requires Bare(key) == name + (if append then "+" else "") && ValidName(name)
    ensures ValidName(key) ==> key == name && !append && !HasHidden(key)
    ensures !HasHidden(key) && !append ==> key == name
  {
    BareIffHidden(key);
    if ValidName(key) {
      PlainChars(key);
      PlusEndsNoName(name);
    }
  }

  lemma PlusEndsNoName(name: string)
    ensures !AllNameChars(name + "+")
  {
    assert (name + "+")[|name|] == '+';
  }

  /** A dropped line could only have set a stripped key. */
  lemma DroppedNamesStripped(line: string)
    requires Dropped(line) && Means(line).Set? && FirstBreak(line) == |line|
    ensures Means(line).name in STRIP && !Means(line).append && !HasHidden(PyKey(line))
  {
    SameSpelling(line);
    StripIsPlain(PyKey(line));
    Spellings(PyKey(line), Means(line).name, Means(line).append);
  }

  /** A line that sets a stripped key gets through exactly when blanks or NULs inside its name, or a plus sign
      after it, hide the key from the filter. */
  ghost predicate Disguised(line: string) {
    var s := Means(line);
    s.Set? && s.name in STRIP && (HasHidden(PyKey(line)) || s.append)
  }

  lemma KeptIffDisguised(line: string)
    requires Means(line).Set? && Means(line).name in STRIP && FirstBreak(line) == |line|
    ensures !Dropped(line) <==> Disguised(line)
  {
    SameSpelling(line);
    if Dropped(line) { DroppedNamesStripped(line); }
    else { Spellings(PyKey(line), Means(line).name, Means(line).append); }
  }

  // ---- whole files ------------------------------------------------------------------------------------

  /** Equal outside the stripped keys. */
  ghost predicate Agree(a: Option<Env>, b: Option<Env>) {
    && a.Some? == b.Some?
    && (a.Some? ==> forall k :: k !in STRIP ==>
          (k in a.value <==> k in b.value) && (k in a.value ==> a.value[k] == b.value[k]))
  }

  /** `b` leaves out settings of stripped keys, and perhaps bad ones where those are ignored. */
  ghost predicate Thinner(strict: bool, a: seq<Setting>, b: seq<Setting>) {
    |a| == |b| && forall i :: 0 <= i < |a| ==>
      b[i] == a[i] || (b[i] == Skip && (a[i].Set? ==> a[i].name in STRIP) && (strict ==> !a[i].Bad?))
  }

  lemma {:induction false} ThinnerAgrees(strict: bool, env: Env, a: seq<Setting>, b: seq<Setting>)
    requires Thinner(strict, a, b)
    ensures Agree(Replay(strict, env, a), Replay(strict, env, b))
  {
    if a != [] { ThinnerAgrees(strict, env, a[..|a| - 1], b[..|b| - 1]); }
  }

  lemma {:induction false} FilterIndex(lines: seq<string>, i: nat)
    requires i < |lines|
    ensures |FilterLines(lines)| == |lines| && FilterLines(lines)[i] == FilterLine(lines[i])
  {
    if i < |lines| - 1 { FilterIndex(lines[..|lines| - 1], i); }
    else if i > 0 { FilterIndex(lines[..i], i - 1); }
  }

  /** A line through the filter: unchanged, or one that sets nothing in place of a stripped key. */
  lemma FilteredLine(line: string)
    requires FirstBreak(line) == |line|
    ensures FirstBreak(FilterLine(line)) == |FilterLine(line)|
    ensures if Dropped(line) then Means(FilterLine(line)) == Skip && (Means(line).Set? ==> Means(line).name in STRIP)
            else FilterLine(line) == line
  {
    if Dropped(line) {
      DroppedSetsNothing(line);
      if Means(line).Set? { DroppedNamesStripped(line); }
    }
  }

  /** What the instance reads is what the filter kept. */
  lemma ShippedLoads(strict: bool, env: Env, text: string)
    ensures Load(strict, env, Shipped(text)) == Replay(strict, env, Settings(FilterLines(PyLines(text))))
  {
    var lines := PyLines(text);
    var kept := FilterLines(lines);
    PyLinesUnbroken(text);
    if kept == [] {
      EmptyBody(strict, env);
    } else {
      forall i | 0 <= i < |kept| ensures '\n' !in kept[i] {
        FilterLength(lines);
        FilterIndex(lines, i);
        FilteredLine(lines[i]);
        HeardLine(kept[i]);
      }
      ReadBack(kept);
    }
  }

  lemma {:induction false} FilterLength(lines: seq<string>)
    ensures |FilterLines(lines)| == |lines|
  {
    if lines != [] { FilterLength(lines[..|lines| - 1]); }
  }

  lemma EmptyBody(strict: bool, env: Env)
    ensures Load(strict, env, "\n") == Replay(strict, env, Settings([]))
  {
    ReadBack([""]);
    assert Joined([""]) == "\n";
    var settings := Settings([""]);
    assert settings[0] == Skip;
    assert settings[..0] == [];
  }

  lemma NulSnoc(s: string, c: char)
    requires c != '\0'
    ensures DropNul(s + [c]) == DropNul(s) + [c]
  {
    NulConcat(s, [c]);
    assert [c][1..] == "";
  }

  lemma HeardWithoutCr(py: string, sh: string)
    requires py == DropCr(sh) && FirstBreak(py) == |py|
    ensures Heard(py) == Heard(sh)
  {
    HeardLine(py);
    if py != sh {
      CrSplits(sh);
      NulSnoc(py, '\r');
      DropCrSnoc(DropNul(py));
    }
  }

  lemma CrSplits(line: string)
    requires DropCr(line) != line
    ensures line == DropCr(line) + ['\r']
  {
  }

  lemma DropCrSnoc(s: string)
    ensures DropCr(s + ['\r']) == s
  {
  }

  /** The parser drops carriage returns itself. */
  lemma SameSettings(text: string)
    requires Ordinary(text)
    ensures Settings(ShLines(text)) == Settings(PyLines(text))
  {
    SameLines(text);
    PyLinesUnbroken(text);
    var py, sh := PyLines(text), ShLines(text);
    forall i | 0 <= i < |sh| ensures Settings(sh)[i] == Settings(py)[i] { HeardWithoutCr(py[i], sh[i]); }
  }

  lemma FilterThins(strict: bool, text: string)
    requires strict ==> forall i :: 0 <= i < |PyLines(text)| ==> !Settings(PyLines(text))[i].Bad?
    ensures Thinner(strict, Settings(PyLines(text)), Settings(FilterLines(PyLines(text))))
  {
    var lines := PyLines(text);
    FilterLength(lines);
    PyLinesUnbroken(text);
    var a, b := Settings(lines), Settings(FilterLines(lines));
    forall i | 0 <= i < |a|
      ensures b[i] == a[i] || (b[i] == Skip && (a[i].Set? ==> a[i].name in STRIP) && (strict ==> !a[i].Bad?))
    {
      FilterIndex(lines, i);
      FilteredLine(lines[i]);
    }
  }

  lemma {:induction false} LaxNeverAborts(env: Env, settings: seq<Setting>)
    ensures Replay(false, env, settings).Some?
  {
    if settings != [] { LaxNeverAborts(env, settings[..|settings| - 1]); }
  }

  lemma {:induction false} StrictMeansNoBad(env: Env, settings: seq<Setting>)
    requires Replay(true, env, settings).Some?
    ensures forall i :: 0 <= i < |settings| ==> !settings[i].Bad?
  {
    if settings != [] { StrictMeansNoBad(env, settings[..|settings| - 1]); }
  }

  /** Filtering commutes with parsing: every variable outside the stripped keys gets the value it would
      have had from the unfiltered file, the last assignment winning, or stays as it was. */
  lemma FilterThenLoad(env: Env, text: string)
    requires Ordinary(text)
    ensures Load(false, env, text).Some? && Agree(Load(false, env, text), Load(false, env, Shipped(text)))
  {
    SameSettings(text);
    FilterThins(false, text);
    ThinnerAgrees(false, env, Settings(PyLines(text)), Settings(FilterLines(PyLines(text))));
    ShippedLoads(false, env, text);
    LaxNeverAborts(env, Settings(ShLines(text)));
  }

  /** A file that loads where a bad name aborts still does so after the filter, with the same values. */
  lemma FilterThenLoadStrictly(env: Env, text: string)
    requires Ordinary(text) && Load(true, env, text).Some?
    ensures Agree(Load(true, env, text), Load(true, env, Shipped(text)))
  {
    SameSettings(text);
    StrictMeansNoBad(env, Settings(PyLines(text)));
    FilterThins(true, text);
    ThinnerAgrees(true, env, Settings(PyLines(text)), Settings(FilterLines(PyLines(text))));
    ShippedLoads(true, env, text);
  }

  ghost predicate Sets(s: Setting, k: string) { s.Set? && s.name == k }

  lemma {:induction false} ReplaySets(env: Env, settings: seq<Setting>, k: string)
    requires k !in env
    ensures Replay(false, env, settings).Some?
    ensures k in Replay(false, env, settings).value <==> exists i :: 0 <= i < |settings| && Sets(settings[i], k)
  {
    if settings != [] {
      var front, last := settings[..|settings| - 1], settings[|settings| - 1];
      ReplaySets(env, front, k);
      assert settings == front + [last];
      assert (exists i :: 0 <= i < |settings| && Sets(settings[i], k))
        <==> Sets(last, k) || exists i :: 0 <= i < |front| && Sets(front[i], k) by
      {
        if i :| 0 <= i < |front| && Sets(front[i], k) { assert Sets(settings[i], k); }
        if Sets(last, k) { assert Sets(settings[|front|], k); }
      }
    }
  }

  /** Line `i` brings `k` to the instance. */
  ghost predicate LeaksAt(lines: seq<string>, i: int, k: string) {
    0 <= i < |lines| && Sets(Means(lines[i]), k) && Disguised(lines[i])
  }

  lemma LeaksHere(lines: seq<string>, i: int, k: string)
    requires Unbroken(lines) && 0 <= i < |lines| && k in STRIP
    ensures |FilterLines(lines)| == |lines|
    ensures Sets(Settings(FilterLines(lines))[i], k) <==> LeaksAt(lines, i, k)
  {
    FilterIndex(lines, i);
    FilteredLine(lines[i]);
    if Sets(Means(lines[i]), k) { KeptIffDisguised(lines[i]); }
  }

  /** A stripped key reaches the instance exactly when some line spells it in disguise. */
  lemma StrippedKeyLeaksIff(env: Env, text: string, k: string)
    requires k in STRIP && k !in env
    ensures Load(false, env, Shipped(text)).Some?
    ensures k in Load(false, env, Shipped(text)).value <==> exists i :: LeaksAt(PyLines(text), i, k)
  {
    var lines := PyLines(text);
    var settings := Settings(FilterLines(lines));
    FilterLength(lines);
    PyLinesUnbroken(text);
    ShippedLoads(false, env, text);
    ReplaySets(env, settings, k);
    if i :| 0 <= i < |settings| && Sets(settings[i], k) { LeaksHere(lines, i, k); }
    if i :| LeaksAt(lines, i, k) { LeaksHere(lines, i, k); }
  }

  /** A blank or NUL inside any of the keys is such a disguise. */
  lemma InnerBlankLeaks(k: string, j: nat, c: char, value: string)
    requires k in STRIP && 0 < j < |k| && Hidden(c)
    ensures Disguised(k[..j] + [c] + k[j..] + "=" + value)
  {
    var raw := k[..j] + [c] + k[j..];
    var line := raw + "=" + value;
    StripIsPlain(k);
    SplitName(k, j, c, raw);
    FirstAfter(raw, '=', value, line);
    assert line[|raw|] == '=' && PyKey(line) == raw;
    HeardStart(raw, value);
    SettingHere(Heard(line), k);
  }

  /** The name as the parser cuts it out. */
  lemma HeardStart(raw: string, value: string)
    requires '=' !in raw && raw != "" && raw[0] != '\0'
    ensures var h := Heard(raw + "=" + value); h != "" && h[0] == raw[0] && '=' in h && RawKey(h) == DropNul(raw)
  {
    HeardSplits(raw, value);
    NulMembers(raw, '=');
    NulHead(raw);
    var rest := DropCr(DropNul(value));
    var h := DropNul(raw) + "=" + rest;
    FirstAfter(DropNul(raw), '=', rest, h);
    assert h[|DropNul(raw)|] == '=';
  }

  lemma NulHead(s: string)
    requires s != "" && s[0] != '\0'
    ensures DropNul(s) != "" && DropNul(s)[0] == s[0]
  {
  }

  /** The equals sign separates what the parser drops on its left from what it drops on its right. */
  lemma HeardSplits(raw: string, value: string)
    ensures Heard(raw + "=" + value) == DropNul(raw) + "=" + DropCr(DropNul(value))
  {
    NulConcat(raw + "=", value);
    NulSnoc(raw, '=');
    CrAfter(DropNul(raw) + "=", DropNul(value));
  }

  lemma CrAfter(s: string, t: string)
    requires s != "" && s[|s| - 1] != '\r'
    ensures DropCr(s + t) == s + DropCr(t)
  {
    if t == "" { assert s + t == s; } else { assert (s + t)[..|s + t| - 1] == s + t[..|t| - 1]; }
  }

  lemma SettingHere(line: string, k: string)
    requires '=' in line && !IsBlank(line[0]) && line[0] != '#'
    requires ValidName(k) && Squeeze(RawKey(line)) == k
    ensures Parse(line) == Set(k, Value(line), false)
  {
  }

  lemma SplitName(k: string, j: nat, c: char, raw: string)
    requires ValidName(k) && 0 < j < |k| && Hidden(c) && raw == k[..j] + [c] + k[j..]
    ensures Squeeze(DropNul(raw)) == k && Trim(raw) == raw && HasHidden(raw)
    ensures !IsBlank(raw[0]) && raw[0] != '#' && raw[0] != '\0' && '=' !in raw
  {
    SplitChars(k, j, c, raw);
    assert raw[j] == c && Hidden(raw[j]);
    SplitBares(k, j, c, raw);
    TrimStays(raw);
  }

  lemma SplitBares(k: string, j: nat, c: char, raw: string)
    requires AllNameChars(k) && j <= |k| && Hidden(c) && raw == k[..j] + [c] + k[j..]
    ensures Squeeze(DropNul(raw)) == k
  {
    BareSplit(k[..j], c, k[j..]);
    BareInTwoSteps(raw);
    assert k[..j] + k[j..] == k;
  }

  lemma SplitChars(k: string, j: nat, c: char, raw: string)
    requires 0 < j < |k| && raw == k[..j] + [c] + k[j..]
    ensures forall i :: 0 <= i < |raw| ==> raw[i] == if i < j then k[i] else if i == j then c else k[i - 1]
  {
  }

  lemma TrimStays(s: string)
    requires s != "" && IsNameChar(s[0]) && IsNameChar(s[|s| - 1])
    ensures Trim(s) == s
  {
  }

  lemma BareSplit(s: string, c: char, t: string)
    requires AllNameChars(s) && AllNameChars(t) && Hidden(c)
    ensures Bare(s + [c] + t) == s + t
  {
    PlainChars(s);
    PlainChars(t);
    BareConcat(s + [c], t);
    LastSurvives(s, c);
  }
}
