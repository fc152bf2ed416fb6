/** envManager: parsing the .env file and editing it line by line. */
module EnvFile {
  import opened Outcomes
  import opened Texts

  // ---------------------------------------------------------------- lines and their entries

  /** What String.trim removes. */
  predicate Blank(c: char) {
    || '\t' <= c <= '\r' || c == ' ' || c == '\U{A0}' || c == '\U{1680}' || '\U{2000}' <= c <= '\U{200A}'
    || '\U{2028}' <= c <= '\U{2029}' || c == '\U{202F}' || c == '\U{205F}' || c == '\U{3000}' || c == '\U{FEFF}'
  }

  /** What a dot does not match. */
  predicate Terminator(c: char) {
    c == '\n' || c == '\r' || c == '\U{2028}' || c == '\U{2029}'
  }

  function TrimStart(s: string): string {
    if s != "" && Blank(s[0]) then TrimStart(s[1..]) else s
  }

  function TrimEnd(s: string): string {
    if s != "" && Blank(s[|s| - 1]) then TrimEnd(s[..|s| - 1]) else s
  }

  function Trim(s: string): string {
    TrimEnd(TrimStart(s))
  }

  predicate Returns(line: string) {
    line != "" && line[|line| - 1] == '\r'
  }

  function Unreturned(line: string): string {
    if Returns(line) then line[..|line| - 1] else line
  }

  function AllUnreturned(lines: seq<string>): seq<string> {
    if lines == [] then [] else AllUnreturned(lines[..|lines| - 1]) + [Unreturned(lines[|lines| - 1])]
  }

  /** Each part but the last loses a carriage return at its end. */
  function Shorn(parts: seq<string>): seq<string>
    requires parts != []
  {
    AllUnreturned(parts[..|parts| - 1]) + [parts[|parts| - 1]]
  }

  /** content.split(/\r?\n/) */
  function Lines(content: string): seq<string> {
    Shorn(Split(content, '\n'))
  }

  function FirstEquals(line: string): (i: nat)
    ensures i <= |line| && '=' !in line[..i] && (i < |line| ==> line[i] == '=')
  {
    if line == "" || line[0] == '=' then 0 else FirstEquals(line[1..]) + 1
  }

  predicate OneLine(s: string) {
    forall i :: 0 <= i < |s| ==> !Terminator(s[i])
  }

  /** The match of ^([^=]+)=(.*)$ with both groups trimmed. */
  function Entry(line: string): Option<(string, string)> {
    var i := FirstEquals(line);
    if i == 0 || i == |line| || !OneLine(line[i + 1..]) then None
    else Some((Trim(line[..i]), Trim(line[i + 1..])))
  }

  function With(m: map<string, string>, entry: Option<(string, string)>): map<string, string> {
    if entry.Some? then m[entry.value.0 := entry.value.1] else m
  }

  function Parse(lines: seq<string>): map<string, string> {
    if lines == [] then map[] else With(Parse(lines[..|lines| - 1]), Entry(lines[|lines| - 1]))
  }

  // ---------------------------------------------------------------- edits

  /** The test both edits use: the line, trimmed, begins with key=. */
  predicate IsFor(line: string, key: string) {
    key + "=" <= Trim(line)
  }

  function Assignment(key: string, value: string): string {
    key + "=" + value
  }

  predicate Mentions(lines: seq<string>, key: string) {
    exists i :: 0 <= i < |lines| && IsFor(lines[i], key)
  }

  function Replaced(lines: seq<string>, key: string, value: string): seq<string> {
    seq(|lines|, i requires 0 <= i < |lines| => if IsFor(lines[i], key) then Assignment(key, value) else lines[i])
  }

  function SetLines(lines: seq<string>, key: string, value: string): seq<string> {
    if Mentions(lines, key) then Replaced(lines, key, value)
    else lines + (if lines != [] && lines[|lines| - 1] != "" then [""] else []) + [Assignment(key, value)]
  }

  function DeleteLines(lines: seq<string>, key: string): seq<string> {
    if lines == [] then []
    else DeleteLines(lines[..|lines| - 1], key) + (if IsFor(lines[|lines| - 1], key) then [] else [lines[|lines| - 1]])
  }

  function SetContent(content: string, key: string, value: string): string {
    Join(SetLines(Lines(content), key, value), '\n')
  }

  function DeleteContent(content: string, key: string): string {
    Join(DeleteLines(Lines(content), key), '\n')
  }

  // ---------------------------------------------------------------- the manager

  class EnvManager {
    var file: Option<string>
    var process: map<string, string>

    constructor (content: Option<string>, env: map<string, string>)
      ensures file == content && process == env
    {
      file, process := content, env;
    }

    method GetEnv() returns (result: map<string, string>)
      ensures result == if file.Some? then Parse(Lines(file.value)) else map[]
    {
      result := map[];
      if file == None {
        return;
      }
      var lines := Lines(file.value);
      for i := 0 to |lines|
        invariant result == Parse(lines[..i])
      {
        assert lines[..i + 1][..i] == lines[..i];
        var entry := Entry(lines[i]);
        if entry.Some? {
          result := result[entry.value.0 := entry.value.1];
        }
      }
      assert lines[..|lines|] == lines;
    }

    method SetEnvValue(key: string, value: string)
      modifies this
      ensures file == Some(SetContent(old(file).GetOr(""), key, value))
      ensures process == old(process)[key := value]
    {
      var content := if file.Some? then file.value else "";
      var lines := Lines(content);
      var newLines, found := Rewrite(lines, key, value);
      if !found {
        Unmentioned(lines, key, value);
        if |newLines| > 0 && newLines[|newLines| - 1] != "" {
          newLines := newLines + [""];
        }
        newLines := newLines + [Assignment(key, value)];
      }
      assert newLines == SetLines(lines, key, value) by {
        assert lines + [] == lines;
      }
      file := Some(Join(newLines, '\n'));
      process := process[key := value];
    }

    /** The map over the lines in setEnvValue, with the flag it sets on the side. */
    method Rewrite(lines: seq<string>, key: string, value: string) returns (newLines: seq<string>, found: bool)
      ensures newLines == Replaced(lines, key, value)
      ensures found <==> Mentions(lines, key)
    {
      newLines, found := [], false;
      for i := 0 to |lines|
        invariant |newLines| == i
        invariant forall k :: 0 <= k < i ==> newLines[k] == if IsFor(lines[k], key) then Assignment(key, value) else lines[k]
        invariant found <==> exists k :: 0 <= k < i && IsFor(lines[k], key)
      {
        if IsFor(lines[i], key) {
          found := true;
          newLines := newLines + [Assignment(key, value)];
        } else {
          newLines := newLines + [lines[i]];
        }
      }
    }

    method DeleteEnvValue(key: string)
      modifies this
      ensures file == if old(file).Some? && Mentions(Lines(old(file).value), key)
                      then Some(DeleteContent(old(file).value, key)) else old(file)
      ensures process == if old(file).Some? && Mentions(Lines(old(file).value), key) then old(process) - {key} else old(process)
    {
      if file == None {
        return;
      }
      var lines := Lines(file.value);
      var newLines := Without(lines, key);
      if |newLines| != |lines| {
        file := Some(Join(newLines, '\n'));
        process := process - {key};
      }
    }

    /** The filter over the lines in deleteEnvValue. */
    method Without(lines: seq<string>, key: string) returns (newLines: seq<string>)
      ensures newLines == DeleteLines(lines, key)
      ensures |newLines| == |lines| <==> !Mentions(lines, key)
    {
      newLines := [];
      for i := 0 to |lines|
        invariant newLines == DeleteLines(lines[..i], key) && |newLines| <= i
        invariant |newLines| == i <==> forall k :: 0 <= k < i ==> !IsFor(lines[k], key)
      {
        assert lines[..i + 1][..i] == lines[..i];
        if !IsFor(lines[i], key) {
          newLines := newLines + [lines[i]];
        }
      }
      assert lines[..|lines|] == lines;
    }
  }

  lemma Unmentioned(lines: seq<string>, key: string, value: string)
    requires !Mentions(lines, key)
    ensures Replaced(lines, key, value) == lines
  {
  }

  // ---------------------------------------------------------------- trimming

  predicate AllBlank(s: string) {
    forall i :: 0 <= i < |s| ==> Blank(s[i])
  }

  /** Nothing to trim. */
  predicate Trimmed(s: string) {
    s == "" || (!Blank(s[0]) && !Blank(s[|s| - 1]))
  }

  lemma {:induction false} TrimStartSkips(pad: string, core: string)
    requires AllBlank(pad) && (core == "" || !Blank(core[0]))
    ensures TrimStart(pad + core) == core
    decreases |pad|
  {
    if pad == "" {
      assert pad + core == core;
    } else {
      assert (pad + core)[1..] == pad[1..] + core;
      TrimStartSkips(pad[1..], core);
    }
  }

  lemma {:induction false} TrimEndSkips(core: string, tail: string)
    requires AllBlank(tail) && (core == "" || !Blank(core[|core| - 1]))
    ensures TrimEnd(core + tail) == core
    decreases |tail|
  {
    if tail == "" {
      assert core + tail == core;
    } else {
      assert (core + tail)[..|core + tail| - 1] == core + tail[..|tail| - 1];
      TrimEndSkips(core, tail[..|tail| - 1]);
    }
  }

  lemma TrimSkips(pad: string, core: string, tail: string)
    requires AllBlank(pad) && AllBlank(tail) && core != "" && Trimmed(core)
    ensures Trim(pad + core + tail) == core
  {
    assert pad + core + tail == pad + (core + tail);
    TrimStartSkips(pad, core + tail);
    TrimEndSkips(core, tail);
  }

  lemma {:induction false} TrimStartSplits(s: string) returns (pad: string)
    ensures AllBlank(pad) && s == pad + TrimStart(s)
    ensures TrimStart(s) == "" || !Blank(TrimStart(s)[0])
    decreases |s|
  {
    if s != "" && Blank(s[0]) {
      var rest := TrimStartSplits(s[1..]);
      pad := [s[0]] + rest;
      assert s == [s[0]] + s[1..];
    } else {
      pad := "";
    }
  }

  lemma {:induction false} TrimEndSplits(s: string) returns (tail: string)
    ensures AllBlank(tail) && s == TrimEnd(s) + tail
    ensures TrimEnd(s) == "" || !Blank(TrimEnd(s)[|TrimEnd(s)| - 1])
    decreases |s|
  {
    if s != "" && Blank(s[|s| - 1]) {
      var rest := TrimEndSplits(s[..|s| - 1]);
      tail := rest + [s[|s| - 1]];
      assert s == s[..|s| - 1] + [s[|s| - 1]];
    } else {
      tail := "";
    }
  }

  lemma TrimSplits(s: string) returns (pad: string, tail: string)
    ensures AllBlank(pad) && AllBlank(tail) && s == pad + Trim(s) + tail && Trimmed(Trim(s))
  {
    pad := TrimStartSplits(s);
    tail := TrimEndSplits(TrimStart(s));
    TrimmedParts(s, pad, tail);
  }

  lemma TrimmedParts(s: string, pad: string, tail: string)
    requires s == pad + TrimStart(s) && TrimStart(s) == Trim(s) + tail
    requires TrimStart(s) == "" || !Blank(TrimStart(s)[0])
    requires Trim(s) == "" || !Blank(Trim(s)[|Trim(s)| - 1])
    ensures s == pad + Trim(s) + tail && Trimmed(Trim(s))
  {
    var t, core := TrimStart(s), Trim(s);
    assert pad + (core + tail) == pad + core + tail;
    if core != "" {
      assert t[0] == core[0];
    }
  }

  // ---------------------------------------------------------------- which key a line sets

  predicate GoodKey(key: string) {
    key != "" && Trimmed(key) && '=' !in key && '\n' !in key
  }

  predicate GoodValue(value: string) {
    Trimmed(value) && OneLine(value)
  }

  /** No blank before the first equals sign. */
  predicate Tidy(line: string) {
    var i := FirstEquals(line);
    0 < i < |line| ==> !Blank(line[i - 1])
  }

  lemma {:induction false} FirstEqualsIs(before: string, rest: string)
    requires '=' !in before
    ensures FirstEquals(before + "=" + rest) == |before|
    decreases |before|
  {
    if before != "" {
      assert before[0] in before && forall c :: c in before[1..] ==> c in before;
      assert (before + "=" + rest)[1..] == before[1..] + "=" + rest;
      FirstEqualsIs(before[1..], rest);
    }
  }

  lemma NoEquals(pad: string)
    requires AllBlank(pad)
    ensures '=' !in pad
  {
  }

  lemma KeyLocated(pad: string, key: string, rest: string)
    requires GoodKey(key) && AllBlank(pad)
    ensures var line := pad + key + "=" + rest;
            FirstEquals(line) == |pad + key| && line[..|pad + key|] == pad + key && Trim(pad + key) == key
  {
    NoEquals(pad);
    FirstEqualsIs(pad + key, rest);
    TrimSkips(pad, key, "");
    assert pad + key + "" == pad + key;
  }

  /** The line sets the key, with no blank before the equals sign. */
  predicate Sets(line: string, key: string) {
    var i := FirstEquals(line);
    0 < i < |line| && Trim(line[..i]) == key && !Blank(line[i - 1])
  }

  lemma LocatedSets(pad: string, key: string, rest: string)
    requires GoodKey(key) && AllBlank(pad)
    ensures Sets(pad + key + "=" + rest, key)
  {
    var line := pad + key + "=" + rest;
    KeyLocated(pad, key, rest);
    assert line[|pad + key| - 1] == key[|key| - 1];
  }

  lemma Regroup(pad: string, trimmed: string, tail: string, key: string)
    requires key + "=" <= trimmed
    ensures pad + trimmed + tail == pad + key + "=" + (trimmed[|key| + 1..] + tail)
  {
    assert trimmed == key + "=" + trimmed[|key| + 1..];
  }

  lemma IsForMeans(line: string, key: string)
    requires GoodKey(key) && IsFor(line, key)
    ensures Sets(line, key)
  {
    var pad, tail := TrimSplits(line);
    var trimmed := Trim(line);
    Regroup(pad, trimmed, tail, key);
    LocatedSets(pad, key, trimmed[|key| + 1..] + tail);
  }

  /** Trimming the end of a text that goes on after `core` leaves `core` and at least the next character. */
  lemma {:induction false} TrimEndKeeps(core: string, next: char, rest: string)
    requires !Blank(next)
    ensures core + [next] <= TrimEnd(core + [next] + rest)
    decreases |rest|
  {
    var s := core + [next] + rest;
    if rest == "" {
      assert s[|s| - 1] == next;
    } else if Blank(s[|s| - 1]) {
      assert s[..|s| - 1] == core + [next] + rest[..|rest| - 1];
      TrimEndKeeps(core, next, rest[..|rest| - 1]);
    }
  }

  lemma LocatedIsFor(pad: string, key: string, rest: string)
    requires GoodKey(key) && AllBlank(pad)
    ensures IsFor(pad + (key + "=" + rest), key)
  {
    TrimStartSkips(pad, key + "=" + rest);
    TrimEndKeeps(key, '=', rest);
  }

  lemma BlankTail(whole: string, core: string, tail: string)
    requires AllBlank(tail) && whole == core + tail && whole != ""
    ensures tail == "" || Blank(whole[|whole| - 1])
  {
    if tail != "" {
      assert whole[|whole| - 1] == tail[|tail| - 1];
    }
  }

  lemma SetsIsFor(line: string, key: string)
    requires GoodKey(key) && Sets(line, key)
    ensures IsFor(line, key)
  {
    var i := FirstEquals(line);
    var before, rest := line[..i], line[i + 1..];
    var pad, tail := TrimSplits(before);
    assert before[|before| - 1] == line[i - 1];
    BlankTail(before, pad + key, tail);
    assert before == pad + key;
    assert line == before + "=" + rest == pad + (key + "=" + rest);
    LocatedIsFor(pad, key, rest);
  }

  lemma EntryKey(line: string, key: string)
    requires GoodKey(key) && Entry(line).Some?
    ensures IsFor(line, key) ==> Entry(line).value.0 == key
    ensures Tidy(line) && Entry(line).value.0 == key ==> IsFor(line, key)
  {
    if IsFor(line, key) {
      IsForMeans(line, key);
    } else if Tidy(line) && Entry(line).value.0 == key {
      assert Sets(line, key);
      SetsIsFor(line, key);
    }
  }

  lemma TrimNothing(s: string)
    requires Trimmed(s)
    ensures Trim(s) == s
  {
    if s != "" {
      TrimSkips("", s, "");
      assert "" + s + "" == s;
    }
  }

  lemma AssignmentSplits(key: string, value: string)
    requires GoodKey(key)
    ensures var line := Assignment(key, value);
            FirstEquals(line) == |key| && line[..|key|] == key && line[|key| + 1..] == value && Tidy(line)
  {
    FirstEqualsIs(key, value);
  }

  lemma AssignmentPlain(key: string, value: string)
    requires GoodKey(key) && GoodValue(value)
    ensures '\n' !in Assignment(key, value) && !Returns(Assignment(key, value))
  {
  }

  lemma AssignmentIsFor(key: string, value: string)
    requires GoodKey(key)
    ensures IsFor(Assignment(key, value), key)
  {
    LocatedIsFor("", key, value);
    assert "" + (key + "=" + value) == Assignment(key, value);
  }

  lemma AssignmentEntry(key: string, value: string)
    requires GoodKey(key) && GoodValue(value)
    ensures Entry(Assignment(key, value)) == Some((key, value))
    ensures IsFor(Assignment(key, value), key)
  {
    AssignmentSplits(key, value);
    TrimNothing(key);
    TrimNothing(value);
    AssignmentIsFor(key, value);
  }

  // ---------------------------------------------------------------- what an edit does to the parse

  /** The line parses to the key, but the edits do not see it as the key's: a blank before the equals sign. */
  predicate Stray(line: string, key: string) {
    Entry(line).Some? && Entry(line).value.0 == key && !IsFor(line, key)
  }

  /** After the last line an edit would replace comes a stray one with another value. */
  predicate Shadowed(lines: seq<string>, key: string, value: string) {
    if lines == [] then false
    else
      var before, last := lines[..|lines| - 1], lines[|lines| - 1];
      if IsFor(last, key) then false
      else if Stray(last, key) then Entry(last).value.1 != value && Mentions(before, key)
      else Shadowed(before, key, value)
  }

  lemma ReplacedLast(lines: seq<string>, key: string, value: string)
    requires lines != []
    ensures var all := Replaced(lines, key, value);
            var last := lines[|lines| - 1];
            && all != [] && all[..|all| - 1] == Replaced(lines[..|lines| - 1], key, value)
            && all[|all| - 1] == if IsFor(last, key) then Assignment(key, value) else last
  {
  }

  lemma MentionsLast(lines: seq<string>, key: string)
    requires lines != []
    ensures Mentions(lines, key) <==> Mentions(lines[..|lines| - 1], key) || IsFor(lines[|lines| - 1], key)
  {
    if Mentions(lines, key) && !IsFor(lines[|lines| - 1], key) {
      var i :| 0 <= i < |lines| && IsFor(lines[i], key);
      assert lines[..|lines| - 1][i] == lines[i];
    }
    if Mentions(lines[..|lines| - 1], key) {
      var i :| 0 <= i < |lines| - 1 && IsFor(lines[..|lines| - 1][i], key);
      assert lines[i] == lines[..|lines| - 1][i];
    }
  }

  /** Two parses that agree on every key but one. */
  ghost predicate AgreeBut(m: map<string, string>, n: map<string, string>, key: string) {
    forall k :: k != key ==> (k in m <==> k in n) && (k in n ==> m[k] == n[k])
  }

  lemma WithAgree(m: map<string, string>, n: map<string, string>, key: string, d: Option<(string, string)>, e: Option<(string, string)>)
    requires AgreeBut(m, n, key)
    requires d == e || ((d == None || d.value.0 == key) && (e == None || e.value.0 == key))
    ensures AgreeBut(With(m, d), With(n, e), key)
  {
  }

  /** Replacing leaves every other key alone, and gives the key its value unless a stray line shadows it. */
  lemma {:induction false} ReplacedParses(lines: seq<string>, key: string, value: string)
    requires GoodKey(key) && GoodValue(value)
    ensures AgreeBut(Parse(Replaced(lines, key, value)), Parse(lines), key)
    ensures var after := Parse(Replaced(lines, key, value));
            Mentions(lines, key) ==> key in after && (after[key] == value <==> !Shadowed(lines, key, value))
    decreases |lines|
  {
    if lines != [] {
      var init, last := lines[..|lines| - 1], lines[|lines| - 1];
      var d := if IsFor(last, key) then Assignment(key, value) else last;
      ReplacedParses(init, key, value);
      ReplacedLast(lines, key, value);
      MentionsLast(lines, key);
      AssignmentEntry(key, value);
      if Entry(last).Some? {
        EntryKey(last, key);
      }
      WithAgree(Parse(Replaced(init, key, value)), Parse(init), key, Entry(d), Entry(last));
    }
  }

  lemma {:induction false} ShadowNeedsMention(lines: seq<string>, key: string, value: string)
    ensures Shadowed(lines, key, value) ==> Mentions(lines, key)
    decreases |lines|
  {
    if lines != [] {
      ShadowNeedsMention(lines[..|lines| - 1], key, value);
      MentionsLast(lines, key);
    }
  }

  lemma ParseAppend(lines: seq<string>, line: string)
    ensures Parse(lines + [line]) == With(Parse(lines), Entry(line))
  {
    assert (lines + [line])[..|lines|] == lines;
  }

  lemma Appended(lines: seq<string>, key: string, value: string)
    requires GoodKey(key) && GoodValue(value) && !Mentions(lines, key)
    ensures Parse(SetLines(lines, key, value)) == Parse(lines)[key := value]
  {
    AssignmentEntry(key, value);
    ParseAppend(lines, "");
    ParseAppend(lines, Assignment(key, value));
    ParseAppend(lines + [""], Assignment(key, value));
    assert lines + [] == lines;
  }

  lemma AgreeUpdated(after: map<string, string>, before: map<string, string>, key: string, value: string)
    requires AgreeBut(after, before, key) && key in after
    ensures after == before[key := value] <==> after[key] == value
  {
    assert after[key] == value ==> after == before[key := value];
  }

  /** Setting a key maps it to the value and changes nothing else, exactly when no stray line shadows it. */
  lemma SetParsesIff(lines: seq<string>, key: string, value: string)
    requires GoodKey(key) && GoodValue(value)
    ensures Parse(SetLines(lines, key, value)) == Parse(lines)[key := value] <==> !Shadowed(lines, key, value)
  {
    ShadowNeedsMention(lines, key, value);
    if Mentions(lines, key) {
      ReplacedParses(lines, key, value);
      AgreeUpdated(Parse(Replaced(lines, key, value)), Parse(lines), key, value);
    } else {
      Appended(lines, key, value);
    }
  }

  predicate AnyStray(lines: seq<string>, key: string) {
    lines != [] && (AnyStray(lines[..|lines| - 1], key) || Stray(lines[|lines| - 1], key))
  }

  /** Deleting a key removes it and changes nothing else, exactly when no line of it is stray. */
  lemma {:induction false} DeleteParsesIff(lines: seq<string>, key: string)
    requires GoodKey(key)
    ensures AgreeBut(Parse(DeleteLines(lines, key)), Parse(lines), key)
    ensures key in Parse(DeleteLines(lines, key)) <==> AnyStray(lines, key)
    decreases |lines|
  {
    if lines != [] {
      var init, last := lines[..|lines| - 1], lines[|lines| - 1];
      DeleteParsesIff(init, key);
      if Entry(last).Some? {
        EntryKey(last, key);
      }
      if IsFor(last, key) {
        assert DeleteLines(lines, key) == DeleteLines(init, key);
        WithAgree(Parse(DeleteLines(init, key)), Parse(init), key, None, Entry(last));
      } else {
        ParseAppend(DeleteLines(init, key), last);
        WithAgree(Parse(DeleteLines(init, key)), Parse(init), key, Entry(last), Entry(last));
      }
    }
  }

  // ---------------------------------------------------------------- what a file says

  /** The blanks are the white space and the line terminators of ECMAScript (sections 12.2 and 12.3 of ECMA-262), one by one. */
  lemma BlankSays(c: char)
    ensures Blank(c) <==> c in {'\t', '\n', '\U{B}', '\U{C}', '\r', ' ', '\U{A0}', '\U{1680}',
                                '\U{2000}', '\U{2001}', '\U{2002}', '\U{2003}', '\U{2004}', '\U{2005}', '\U{2006}',
                                '\U{2007}', '\U{2008}', '\U{2009}', '\U{200A}', '\U{2028}', '\U{2029}', '\U{202F}',
                                '\U{205F}', '\U{3000}', '\U{FEFF}'}
  {
  }

  /** Blanks around a text, and nothing else, are trimmed. */
  lemma TrimSays(pad: string, core: string, tail: string)
    requires AllBlank(pad) && AllBlank(tail) && Trimmed(core)
    ensures Trim(pad + core + tail) == core
  {
    if core == "" {
      AllBlankTrims(pad + core + tail);
    } else {
      TrimSkips(pad, core, tail);
    }
  }

  lemma {:induction false} AllBlankTrims(s: string)
    requires AllBlank(s)
    ensures Trim(s) == "" && TrimStart(s) == ""
    decreases |s|
  {
    if s != "" {
      AllBlankTrims(s[1..]);
    }
  }

  /** A line is an assignment when it has an equals sign that is not its first character and no line terminator after that
      sign; it assigns the trimmed rest to the trimmed text before its first equals sign. */
  lemma EntrySays(key: string, value: string)
    requires '=' !in key
    ensures Entry(key) == None
    ensures Entry(key + "=" + value) ==
            if key == "" || '\n' in value || '\r' in value || '\U{2028}' in value || '\U{2029}' in value then None
            else Some((Trim(key), Trim(value)))
  {
    var line := key + "=" + value;
    FirstEqualsIs(key, value);
    assert line[..|key|] == key && line[|key| + 1..] == value;
    TerminatorsSay(value);
    NoEqualsNoEntry(key);
  }

  lemma NoEqualsNoEntry(line: string)
    ensures '=' in line || Entry(line) == None
  {
  }

  lemma TerminatorsSay(s: string)
    ensures OneLine(s) <==> !('\n' in s || '\r' in s || '\U{2028}' in s || '\U{2029}' in s)
  {
    if i :| 0 <= i < |s| && Terminator(s[i]) {
      assert s[i] in s;
    }
  }

  predicate Assigns(line: string, key: string) {
    Entry(line).Some? && Entry(line).value.0 == key
  }

  /** The last line that assigns the key. */
  ghost predicate LastAssignment(lines: seq<string>, key: string, i: nat) {
    i < |lines| && Assigns(lines[i], key) && forall j :: i < j < |lines| ==> !Assigns(lines[j], key)
  }

  /** The last assignment of a key decides. */
  lemma {:induction false} ParseSays(lines: seq<string>, key: string, i: nat)
    requires LastAssignment(lines, key, i)
    ensures key in Parse(lines) && Parse(lines)[key] == Entry(lines[i]).value.1
    decreases |lines|
  {
    var init, last := lines[..|lines| - 1], lines[|lines| - 1];
    if i < |init| {
      assert !Assigns(last, key);
      assert forall j :: 0 <= j < |init| ==> init[j] == lines[j];
      ParseSays(init, key, i);
    }
  }

  /** Without one the key is not set. */
  lemma {:induction false} ParseSaysNot(lines: seq<string>, key: string)
    requires forall i :: 0 <= i < |lines| ==> !Assigns(lines[i], key)
    ensures key !in Parse(lines)
    decreases |lines|
  {
    if lines != [] {
      var init := lines[..|lines| - 1];
      assert forall j :: 0 <= j < |init| ==> init[j] == lines[j];
      assert !Assigns(lines[|lines| - 1], key);
      ParseSaysNot(init, key);
    }
  }
}
