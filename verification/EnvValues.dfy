/** What a `.env` file sets, from the side of its author: each written assignment, with its quotes, padding and
    line ending, against what the scripts read (scripts/lib.sh:21-40, deploy/sync_scripts.py:83-98). */
module EnvValues {
  import opened Basics
  import opened EnvFile

  // ---- one assignment ---------------------------------------------------------------------------------

  datatype Quotes = Unquoted | Double | Single

  /** `NAME=value` or `NAME+=value`, with blanks before and after the name, perhaps ended by CRLF. */
  datatype Assignment =
    Assignment(indent: string, name: string, append: bool, gap: string, value: string, quotes: Quotes, cr: bool)

  function Enclosed(value: string, quotes: Quotes): string {
    match quotes
    case Unquoted => value
    case Double => "\"" + value + "\""
    case Single => "'" + value + "'"
  }

  function Sign(append: bool): string { if append then "+" else "" }

  function Left(a: Assignment): string { a.indent + (a.name + Sign(a.append)) + a.gap }

  function Right(a: Assignment): string { Enclosed(a.value, a.quotes) + (if a.cr then "\r" else "") }

  function Written(a: Assignment): string { Left(a) + "=" + Right(a) }

  ghost predicate WellNamed(a: Assignment) { Blanks(a.indent) && ValidName(a.name) && Blanks(a.gap) }

  predicate AtAnEnd(s: string, c: char) { s != "" && (s[0] == c || s[|s| - 1] == c) }

  /** The value gets through: no NUL in it, and nothing at its ends that counts as a quote, or as the carriage
      return of the line. Single quotes protect any value, double quotes one without single quotes at its ends. */
  predicate Survives(a: Assignment) {
    && '\0' !in a.value
    && match a.quotes
       case Unquoted =>
         && !AtAnEnd(a.value, '\"') && !AtAnEnd(a.value, '\'')
         && (a.cr || a.value == "" || a.value[|a.value| - 1] != '\r')
       case Double => !AtAnEnd(a.value, '\'')
       case Single => true
  }

  /** What the parser leaves of the text after the equals sign. */
  function Peeled(s: string): string { Behead(Chop(Behead(Chop(s, '\"'), '\"'), '\''), '\'') }

  lemma ChopShrinks(s: string, c: char)
    ensures |Behead(Chop(s, c), c)| <= |s|
    ensures if AtAnEnd(s, c) then |Behead(Chop(s, c), c)| < |s| else Behead(Chop(s, c), c) == s
  {
  }

  lemma ChopQuoted(value: string, c: char)
    ensures Behead(Chop([c] + value + [c], c), c) == value
  {
    var s := [c] + value + [c];
    assert s[..|s| - 1] == [c] + value;
  }

  lemma PeeledEnclosed(value: string, quotes: Quotes)
    ensures var inner := !AtAnEnd(value, '\'');
      Peeled(Enclosed(value, quotes)) == value <==>
        match quotes case Unquoted => !AtAnEnd(value, '\"') && inner case Double => inner case Single => true
  {
    var s := Enclosed(value, quotes);
    ChopShrinks(s, '\"');
    match quotes
    case Unquoted => ChopShrinks(Behead(Chop(s, '\"'), '\"'), '\'');
    case Double => ChopQuoted(value, '\"'); ChopShrinks(value, '\'');
    case Single => ChopQuoted(value, '\'');
  }

  lemma {:induction false} DropNulFixes(s: string)
    ensures |DropNul(s)| <= |s|
    ensures '\0' !in s ==> DropNul(s) == s
  {
    if s != "" { DropNulFixes(s[1..]); }
  }

  lemma {:induction false} BlanksVanish(s: string)
    requires Blanks(s)
    ensures Bare(s) == "" && DropBlanks(s) == ""
  {
    if s != "" { BlanksVanish(s[1..]); }
  }

  lemma NameChars(name: string, append: bool)
    requires ValidName(name)
    ensures Bare(name + Sign(append)) == name + Sign(append)
    ensures '=' !in name + Sign(append) && '\0' !in name + Sign(append)
  {
    PlainChars(name);
    BareConcat(name, Sign(append));
    assert Bare("+") == "+" && Bare("") == "";
  }

  /** The part before the equals sign spells the name. */
  lemma LeftSpells(a: Assignment)
    requires WellNamed(a)
    ensures '=' !in Left(a) && DropNul(Left(a)) == Left(a) && Squeeze(Left(a)) == a.name + Sign(a.append)
  {
    NameChars(a.name, a.append);
    BlanksVanish(a.indent);
    BlanksVanish(a.gap);
    BareConcat(a.indent, a.name + Sign(a.append));
    BareConcat(a.indent + (a.name + Sign(a.append)), a.gap);
    DropNulFixes(Left(a));
    BareInTwoSteps(Left(a));
  }

  /** The value as the parser cuts it out. */
  lemma HeardRight(a: Assignment)
    requires WellNamed(a)
    ensures Heard(Written(a)) == Left(a) + "=" + DropCr(DropNul(Right(a)))
  {
    LeftSpells(a);
    HeardSplits(Left(a), Right(a));
  }

  lemma PeeledMembers(s: string, c: char)
    requires c in Peeled(s)
    ensures c in s
  {
    LayerMembers(s, '\"', c);
    LayerMembers(Behead(Chop(s, '\"'), '\"'), '\'', c);
  }

  lemma LayerMembers(s: string, quote: char, c: char)
    ensures c in Behead(Chop(s, quote), quote) ==> c in s
  {
  }

  lemma NulIsLost(a: Assignment)
    requires '\0' in a.value
    ensures '\0' !in Peeled(DropCr(DropNul(Right(a))))
  {
    var heard := DropNul(Right(a));
    NulMembers(Right(a), '\0');
    if '\0' in Peeled(DropCr(heard)) { PeeledMembers(DropCr(heard), '\0'); }
  }

  lemma PeeledShrinks(s: string)
    ensures |Peeled(s)| <= |s|
  {
    ChopShrinks(s, '\"');
    ChopShrinks(Behead(Chop(s, '\"'), '\"'), '\'');
  }

  /** Of the carriage returns the parser drops the one that ends the line. */
  lemma CrOfRight(a: Assignment)
    ensures DropCr(Right(a)) ==
      if !a.cr && a.quotes.Unquoted? then DropCr(a.value) else Enclosed(a.value, a.quotes)
  {
    var s := Enclosed(a.value, a.quotes);
    DropCrSnoc(s);
    assert s + "" == s;
  }

  lemma RightSurvives(a: Assignment)
    ensures Peeled(DropCr(DropNul(Right(a)))) == a.value <==> Survives(a)
  {
    if '\0' in a.value {
      NulIsLost(a);
    } else {
      NoNulInRight(a);
      CrOfRight(a);
      PeeledEnclosed(a.value, a.quotes);
      CrCostsTheValue(a.value);
    }
  }

  lemma NoNulInRight(a: Assignment)
    requires '\0' !in a.value
    ensures DropNul(Right(a)) == Right(a)
  {
    DropNulFixes(Right(a));
  }

  lemma CrCostsTheValue(value: string)
    ensures if value != "" && value[|value| - 1] == '\r' then Peeled(DropCr(value)) != value else DropCr(value) == value
  {
    PeeledShrinks(DropCr(value));
  }

  lemma NotAComment(a: Assignment, rest: string)
    requires WellNamed(a)
    ensures !Comment(Left(a) + "=" + rest)
  {
    var tail := a.name + Sign(a.append) + a.gap + "=" + rest;
    BlanksFirst(a.indent, tail);
    assert Left(a) + "=" + rest == a.indent + tail;
  }

  lemma SpelledSetting(name: string, append: bool, value: string)
    requires ValidName(name)
    ensures SettingOf(name + Sign(append), value) == Set(name, value, append)
  {
    PlusEndsNoName(name);
    assert (name + "+")[..|name|] == name && name + "" == name;
  }

  lemma Parsed(left: string, name: string, append: bool, rest: string)
    requires '=' !in left && ValidName(name) && Squeeze(left) == name + Sign(append)
    requires !Comment(left + "=" + rest)
    ensures Parse(left + "=" + rest) == Set(name, Peeled(rest), append)
  {
    var line := left + "=" + rest;
    FirstAfter(left, '=', rest, line);
    assert line[|left|] == '=';
    SpelledSetting(name, append, Peeled(rest));
  }

  /** An assignment sets or appends to its name, whatever its value; the value arrives as it was meant exactly
      when it survives. Equals signs inside it do not matter. */
  lemma MeansWritten(a: Assignment)
    requires WellNamed(a)
    ensures var m := Means(Written(a)); m.Set? && m.name == a.name && m.append == a.append
    ensures Means(Written(a)) == Set(a.name, a.value, a.append) <==> Survives(a)
  {
    var rest := DropCr(DropNul(Right(a)));
    LeftSpells(a);
    HeardRight(a);
    RightSurvives(a);
    NotAComment(a, rest);
    Parsed(Left(a), a.name, a.append, rest);
  }

  // ---- whole files ------------------------------------------------------------------------------------

  /** A line of a file: an assignment, a comment, or text without an equals sign. */
  datatype Entry = Assign(a: Assignment) | Remark(indent: string, text: string) | Idle(text: string)

  function Line(e: Entry): string {
    match e
    case Assign(a) => Written(a)
    case Remark(indent, text) => indent + "#" + text
    case Idle(text) => text
  }

  function Lines(es: seq<Entry>): seq<string> { seq(|es|, i requires 0 <= i < |es| => Line(es[i])) }

  /** The text of the file. */
  function File(es: seq<Entry>): string { Joined(Lines(es)) }

  ghost predicate Proper(e: Entry) {
    && '\n' !in Line(e)
    && match e
       case Assign(a) => WellNamed(a) && Survives(a)
       case Remark(indent, _) => Blanks(indent)
       case Idle(text) => '=' !in text
  }

  ghost predicate AllProper(es: seq<Entry>) { forall i :: 0 <= i < |es| ==> Proper(es[i]) }

  /** The environment its author has in mind. */
  function Intended(env: Env, es: seq<Entry>): Env {
    if es == [] then env else After(Intended(env, es[..|es| - 1]), es[|es| - 1])
  }

  function After(env: Env, e: Entry): Env {
    match e
    case Assign(a) =>
      if a.append && a.name in env then env[a.name := env[a.name] + a.value] else env[a.name := a.value]
    case _ => env
  }

  lemma RemarkSetsNothing(indent: string, text: string)
    requires Blanks(indent)
    ensures Means(indent + "#" + text) == Skip
  {
    BlanksHaveNoNul(indent);
    NulConcat(indent + "#", text);
    NulSnoc(indent, '#');
    DropNulFixes(indent);
    var rest := DropCr(DropNul(text));
    CrAfter(indent + "#", DropNul(text));
    assert (indent + "#") + rest == indent + ("#" + rest);
    BlanksFirst(indent, "#" + rest);
  }

  lemma BlanksHaveNoNul(s: string)
    requires Blanks(s)
    ensures '\0' !in s && '\n' !in s
  {
  }

  lemma IdleSetsNothing(text: string)
    requires '=' !in text
    ensures Means(text) == Skip
  {
    NulMembers(text, '=');
  }

  lemma EntryMeans(e: Entry)
    requires Proper(e)
    ensures Means(Line(e)) == match e case Assign(a) => Set(a.name, a.value, a.append) case _ => Skip
  {
    match e
    case Assign(a) => MeansWritten(a);
    case Remark(indent, text) => RemarkSetsNothing(indent, text);
    case Idle(text) => IdleSetsNothing(text);
  }

  lemma {:induction false} EntriesReplay(strict: bool, env: Env, es: seq<Entry>)
    requires AllProper(es)
    ensures Replay(strict, env, Settings(Lines(es))) == Some(Intended(env, es))
  {
    if es != [] {
      var front, last := es[..|es| - 1], es[|es| - 1];
      EntriesReplay(strict, env, front);
      SettingsSnoc(es);
      EntryApplies(strict, Intended(env, front), last);
    }
  }

  lemma SettingsSnoc(es: seq<Entry>)
    requires es != []
    ensures var all := Settings(Lines(es));
      all != [] && all[..|all| - 1] == Settings(Lines(es[..|es| - 1])) && all[|all| - 1] == Means(Line(es[|es| - 1]))
  {
  }

  lemma EntryApplies(strict: bool, env: Env, e: Entry)
    requires Proper(e)
    ensures Apply(strict, env, Means(Line(e))) == Some(After(env, e))
  {
    EntryMeans(e);
    if e.Assign? { assert "" + e.a.value == e.a.value; }
  }

  /** A file of proper entries loads as its author meant it, in order: every quoting style, CRLF or LF line by
      line, comments and idle lines between. */
  lemma LoadWritten(strict: bool, env: Env, es: seq<Entry>)
    requires AllProper(es)
    ensures Load(strict, env, File(es)) == Some(Intended(env, es))
  {
    ReadBack(Lines(es));
    EntriesReplay(strict, env, es);
  }

  /** The one-line case. */
  lemma LoadOne(strict: bool, env: Env, k: string, v: string, quotes: Quotes)
    requires ValidName(k) && '\n' !in v && Survives(Assignment("", k, false, "", v, quotes, false))
    ensures Means(k + "=" + Enclosed(v, quotes)) == Set(k, v, false)
    ensures Load(strict, env, k + "=" + Enclosed(v, quotes) + "\n") == Some(env[k := v])
  {
    var a := Assignment("", k, false, "", v, quotes, false);
    WrittenPlainly(k, v, quotes);
    MeansWritten(a);
    NoNewline(k, v, quotes);
    LoadWritten(strict, env, [Assign(a)]);
    OneLine(env, Assign(a));
  }

  lemma WrittenPlainly(k: string, v: string, quotes: Quotes)
    ensures Written(Assignment("", k, false, "", v, quotes, false)) == k + "=" + Enclosed(v, quotes)
  {
    var a := Assignment("", k, false, "", v, quotes, false);
    assert Left(a) == k && Right(a) == Enclosed(v, quotes);
  }

  lemma NoNewline(k: string, v: string, quotes: Quotes)
    requires ValidName(k) && '\n' !in v
    ensures '\n' !in k + "=" + Enclosed(v, quotes)
  {
    PlainChars(k);
    assert '\n' !in k;
  }

  lemma OneLine(env: Env, e: Entry)
    ensures File([e]) == Line(e) + "\n" && Intended(env, [e]) == After(env, e)
  {
    var lines := Lines([e]);
    assert lines[0] == Line(e) && lines[1..] == [] && Joined(lines[1..]) == "";
    assert Joined(lines) == lines[0] + "\n" + Joined(lines[1..]);
    assert lines[0] + "\n" + "" == lines[0] + "\n";
    var es := [e];
    assert Intended(env, es) == After(Intended(env, es[..|es| - 1]), es[|es| - 1]);
  }

  // ---- through the filter -----------------------------------------------------------------------------

  lemma {:induction false} TrimBlanksLeft(s: string, t: string)
    requires Blanks(s) && t != "" && !IsPySpace(t[0])
    ensures TrimLeft(s + t) == t
  {
    if s == "" { assert s + t == t; } else {
      assert (s + t)[1..] == s[1..] + t;
      TrimBlanksLeft(s[1..], t);
    }
  }

  lemma {:induction false} TrimBlanksRight(s: string, t: string)
    requires Blanks(t) && s != "" && !IsPySpace(s[|s| - 1])
    ensures TrimRight(s + t) == s
  {
    if t == "" { assert s + t == s; } else {
      assert (s + t)[..|s + t| - 1] == s + t[..|t| - 1];
      TrimBlanksRight(s, t[..|t| - 1]);
    }
  }

  lemma KeyOfWritten(a: Assignment)
    requires WellNamed(a)
    ensures PyKey(Written(a)) == a.name + Sign(a.append)
  {
    LeftSpells(a);
    KeyOf(Left(a), Right(a));
    KeyEnds(a.name, a.append);
    TrimPadded(a.indent, a.name + Sign(a.append), a.gap);
  }

  lemma KeyEnds(name: string, append: bool)
    requires ValidName(name)
    ensures var key := name + Sign(append); key != "" && !IsPySpace(key[0]) && !IsPySpace(key[|key| - 1])
  {
    assert IsNameChar(name[|name| - 1]);
  }

  lemma KeyOf(left: string, rest: string)
    requires '=' !in left
    ensures PyKey(left + "=" + rest) == Trim(left)
  {
    var line := left + "=" + rest;
    FirstAfter(left, '=', rest, line);
    assert line[|left|] == '=';
  }

  lemma TrimPadded(indent: string, key: string, gap: string)
    requires Blanks(indent) && Blanks(gap) && key != "" && !IsPySpace(key[0]) && !IsPySpace(key[|key| - 1])
    ensures Trim(indent + key + gap) == key
  {
    assert indent + key + gap == indent + (key + gap);
    TrimBlanksLeft(indent, key + gap);
    TrimBlanksRight(key, gap);
  }

  /** The filter stops an assignment to one of the six keys, however it is padded, and no other; an assignment
      that appends gets past it. */
  lemma DroppedIffStripped(a: Assignment)
    requires WellNamed(a)
    ensures Dropped(Written(a)) <==> a.name in STRIP && !a.append
  {
    KeyOfWritten(a);
    if a.append && a.name + "+" in STRIP {
      StripIsPlain(a.name + "+");
      PlusEndsNoName(a.name);
    }
    assert a.name + "" == a.name;
  }

  /** What the instance should still see of an entry. */
  function Shipping(e: Entry): Entry {
    if e.Assign? && e.a.name in STRIP && !e.a.append then Idle("") else e
  }

  function AllShipping(es: seq<Entry>): seq<Entry> { seq(|es|, i requires 0 <= i < |es| => Shipping(es[i])) }

  lemma {:induction false} LinesBack(lines: seq<string>)
    requires Unbroken(lines)
    ensures PyLines(Joined(lines)) == lines
  {
    if lines != [] {
      var head, rest := lines[0], Joined(lines[1..]);
      var text := Joined(lines);
      assert text == head + ['\n'] + rest;
      assert FirstBreak(text) == |head| by {
        assert IsBreak(text[|head|]) && forall i :: 0 <= i < |head| ==> text[i] == head[i] && !IsBreak(head[i]);
      }
      assert text[..|head|] == head && AfterBreak(text, |head|) == rest;
      LinesBack(lines[1..]);
    }
  }

  lemma ShippedEntry(e: Entry)
    requires Proper(e) && FirstBreak(Line(e)) == |Line(e)|
    ensures Proper(Shipping(e)) && Means(FilterLine(Line(e))) == Means(Line(Shipping(e)))
  {
    EntryMeans(e);
    EntryMeans(Shipping(e));
    FilteredLine(Line(e));
    if e.Assign? { DroppedIffStripped(e.a); }
  }

  /** The instance ends up with the file as it was meant, less the plain assignments to the six keys. */
  lemma ShippedWritten(strict: bool, env: Env, es: seq<Entry>)
    requires AllProper(es) && Unbroken(Lines(es))
    ensures Load(strict, env, Shipped(File(es))) == Some(Intended(env, AllShipping(es)))
  {
    LinesBack(Lines(es));
    ShippedLoads(strict, env, File(es));
    FilterLength(Lines(es));
    var a, b := Settings(FilterLines(Lines(es))), Settings(Lines(AllShipping(es)));
    forall i | 0 <= i < |es| ensures Proper(AllShipping(es)[i]) && a[i] == b[i] {
      FilterIndex(Lines(es), i);
      assert Lines(es)[i] == Line(es[i]);
      ShippedEntry(es[i]);
    }
    EntriesReplay(strict, env, AllShipping(es));
    assert a == b;
  }

  /** Of a stripped line only its key is shipped: the value stays at home. */
  lemma ValueStaysHome(line: string, other: string)
    requires Dropped(line) && Dropped(other)
    ensures PyKey(line) == PyKey(other) <==> FilterLine(line) == FilterLine(other)
    ensures "# " + PyKey(line) <= FilterLine(line)
  {
    var k, j := PyKey(line), PyKey(other);
    if FilterLine(line) == FilterLine(other) {
      assert |"# " + k + NOTE| == |"# " + j + NOTE|;
      assert ("# " + k + NOTE)[2..2 + |k|] == k && ("# " + j + NOTE)[2..2 + |j|] == j;
    }
  }

  /** The keys the filter reports are the stripped keys that head some line. */
  lemma {:induction false} ReportedIff(lines: seq<string>, k: string)
    ensures k in RemovedKeys(lines) <==> k in STRIP && exists i :: 0 <= i < |lines| && PyKey(lines[i]) == k
  {
    if lines != [] {
      var front, last := lines[..|lines| - 1], lines[|lines| - 1];
      ReportedIff(front, k);
      assert lines == front + [last];
      if i :| 0 <= i < |front| && PyKey(front[i]) == k { assert PyKey(lines[i]) == k; }
      if i :| 0 <= i < |lines| && PyKey(lines[i]) == k { assert i < |front| ==> PyKey(front[i]) == k; }
    }
  }
}
