/** Edits of the .env file one after another. */
module EnvEdits {
  import opened Outcomes
  import opened Texts
  import opened EnvFile

  function Env(content: string): map<string, string> {
    Parse(Lines(content))
  }

  function Found(m: map<string, string>, key: string): Option<string> {
    if key in m then Some(m[key]) else None
  }

  /** Lines that survive being joined and split again. */
  predicate Steady(lines: seq<string>) {
    Plain(lines) && forall i :: 0 <= i < |lines| ==> !Returns(lines[i])
  }

  predicate Plain(lines: seq<string>) {
    forall i :: 0 <= i < |lines| ==> '\n' !in lines[i]
  }

  // ---------------------------------------------------------------- from lines to the file and back

  /** What joining and splitting makes of lines. */
  function Resplit(lines: seq<string>): seq<string> {
    if lines == [] then [""] else Shorn(lines)
  }

  lemma LinesOfJoin(lines: seq<string>)
    requires Plain(lines)
    ensures Lines(Join(lines, '\n')) == Resplit(lines)
  {
    if lines == [] {
      assert Split("", '\n') == [""];
    } else {
      SplitJoin(lines, '\n');
    }
  }

  lemma LinesArePlain(content: string)
    ensures Plain(Lines(content))
  {
    SplitFree(content, '\n');
    var parts := Split(content, '\n');
    assert forall i :: 0 <= i < |parts| ==> parts[i] in parts;
    UnreturnedPlain(parts[..|parts| - 1]);
  }

  lemma {:induction false} UnreturnedPlain(lines: seq<string>)
    requires Plain(lines)
    ensures Plain(AllUnreturned(lines))
    ensures Steady(lines) ==> AllUnreturned(lines) == lines
    decreases |lines|
  {
    if lines != [] {
      UnreturnedPlain(lines[..|lines| - 1]);
      assert Steady(lines) ==> Steady(lines[..|lines| - 1]);
      assert lines == lines[..|lines| - 1] + [lines[|lines| - 1]];
    }
  }

  lemma SteadyStays(lines: seq<string>)
    requires Steady(lines)
    ensures Resplit(lines) == if lines == [] then [""] else lines
  {
    if lines != [] {
      UnreturnedPlain(lines[..|lines| - 1]);
      assert lines == lines[..|lines| - 1] + [lines[|lines| - 1]];
    }
  }

  lemma EnvOfJoin(lines: seq<string>)
    requires Steady(lines)
    ensures Env(Join(lines, '\n')) == Parse(lines)
  {
    LinesOfJoin(lines);
    SteadyStays(lines);
    BlankLineParses();
  }

  lemma BlankLineParses()
    ensures Parse([""]) == map[]
  {
    assert Entry("") == None;
    assert Parse([""]) == With(Parse([""][..0]), None);
  }

  // ---------------------------------------------------------------- lines that come back to life

  lemma ReturnHidesEntry(line: string)
    requires Returns(line)
    ensures Entry(line) == None
  {
    var i := FirstEquals(line);
    if 0 < i < |line| {
      assert line[i + 1..][|line| - i - 2] == '\r';
    }
  }

  /** The value the last mention of a key has once these lines have lost their carriage returns, if that mention is
      one the carriage return hid. */
  function RevivedAmong(lines: seq<string>, key: string): Option<string> {
    if lines == [] then None
    else
      var last := lines[|lines| - 1];
      var entry := Entry(Unreturned(last));
      if entry.Some? && entry.value.0 == key then (if Returns(last) then Some(entry.value.1) else None)
      else RevivedAmong(lines[..|lines| - 1], key)
  }

  function Revived(lines: seq<string>, key: string): Option<string> {
    if lines == [] then None
    else
      var entry := Entry(lines[|lines| - 1]);
      if entry.Some? && entry.value.0 == key then None else RevivedAmong(lines[..|lines| - 1], key)
  }

  lemma {:induction false} ParseUnreturned(lines: seq<string>, key: string)
    ensures Found(Parse(AllUnreturned(lines)), key) ==
            if RevivedAmong(lines, key).Some? then RevivedAmong(lines, key) else Found(Parse(lines), key)
    decreases |lines|
  {
    if lines != [] {
      var init, last := lines[..|lines| - 1], lines[|lines| - 1];
      ParseUnreturned(init, key);
      ParseAppend(AllUnreturned(init), Unreturned(last));
      if Returns(last) {
        ReturnHidesEntry(last);
      }
    }
  }

  /** The file parses as its lines do, but for the keys whose last mention a carriage return hid. */
  lemma ParseResplit(lines: seq<string>, key: string)
    ensures Found(Parse(Resplit(lines)), key) ==
            if Revived(lines, key).Some? then Revived(lines, key) else Found(Parse(lines), key)
  {
    if lines == [] {
      BlankLineParses();
    } else {
      var init, last := lines[..|lines| - 1], lines[|lines| - 1];
      ParseUnreturned(init, key);
      ParseAppend(AllUnreturned(init), last);
    }
  }

  lemma SameFound(m: map<string, string>, n: map<string, string>)
    ensures m == n <==> forall key :: Found(m, key) == Found(n, key)
  {
    if forall key :: Found(m, key) == Found(n, key) {
      forall key
        ensures key in m <==> key in n
        ensures key in n ==> m[key] == n[key]
      {
        assert Found(m, key) == Found(n, key);
      }
      assert m == n;
    }
  }

  /** Whatever comes back to life has the value that was wanted. */
  ghost predicate RevivesOnly(lines: seq<string>, wanted: map<string, string>) {
    forall key :: Revived(lines, key).Some? ==> Revived(lines, key) == Found(wanted, key)
  }

  lemma EnvIsIff(lines: seq<string>, wanted: map<string, string>, key: string)
    requires Plain(lines) && AgreeBut(Parse(lines), wanted, key)
    ensures Env(Join(lines, '\n')) == wanted <==>
            && RevivesOnly(lines, wanted)
            && (Revived(lines, key) == None ==> Found(Parse(lines), key) == Found(wanted, key))
  {
    var m := Env(Join(lines, '\n'));
    LinesOfJoin(lines);
    SameFound(m, wanted);
    forall q
      ensures Found(m, q) == if Revived(lines, q).Some? then Revived(lines, q) else Found(Parse(lines), q)
      ensures q != key ==> Found(Parse(lines), q) == Found(wanted, q)
    {
      ParseResplit(lines, q);
    }
  }

  // ---------------------------------------------------------------- one edit

  lemma EditsArePlain(lines: seq<string>, key: string, value: string)
    requires GoodKey(key) && GoodValue(value) && Plain(lines)
    ensures Plain(SetLines(lines, key, value))
    ensures Steady(lines) ==> Steady(SetLines(lines, key, value))
  {
    AssignmentPlain(key, value);
    EachOf(lines, SetLines(lines, key, value), Assignment(key, value));
  }

  lemma EachOf(lines: seq<string>, edited: seq<string>, assignment: string)
    requires forall i :: 0 <= i < |edited| ==> edited[i] == assignment || edited[i] == "" || edited[i] in lines
    requires '\n' !in assignment && !Returns(assignment) && Plain(lines)
    ensures Plain(edited)
    ensures Steady(lines) ==> Steady(edited)
  {
  }

  lemma {:induction false} DeleteKeeps(lines: seq<string>, key: string)
    ensures forall line :: line in DeleteLines(lines, key) ==> line in lines && !IsFor(line, key)
    ensures Plain(lines) ==> Plain(DeleteLines(lines, key))
    ensures Steady(lines) ==> Steady(DeleteLines(lines, key))
    decreases |lines|
  {
    if lines != [] {
      var init := lines[..|lines| - 1];
      DeleteKeeps(init, key);
      assert forall i :: 0 <= i < |init| ==> init[i] == lines[i];
    }
  }

  lemma SetAgrees(lines: seq<string>, key: string, value: string)
    requires GoodKey(key) && GoodValue(value)
    ensures AgreeBut(Parse(SetLines(lines, key, value)), Parse(lines)[key := value], key)
    ensures key in Parse(SetLines(lines, key, value))
  {
    if Mentions(lines, key) {
      ReplacedParses(lines, key, value);
    } else {
      Appended(lines, key, value);
    }
  }

  /** On any file setting a key maps it and changes nothing else, exactly when whatever line loses a carriage return
      has the wanted value or is no key's last mention, and no line with a blank before its equals sign shadows the key. */
  lemma SetIff(content: string, key: string, value: string)
    requires GoodKey(key) && GoodValue(value)
    ensures var lines := SetLines(Lines(content), key, value);
            Env(SetContent(content, key, value)) == Env(content)[key := value] <==>
            && RevivesOnly(lines, Env(content)[key := value])
            && (Revived(lines, key) == None ==> !Shadowed(Lines(content), key, value))
  {
    var lines := SetLines(Lines(content), key, value);
    LinesArePlain(content);
    EditsArePlain(Lines(content), key, value);
    SetAgrees(Lines(content), key, value);
    SetParsesIff(Lines(content), key, value);
    AgreeUpdated(Parse(lines), Parse(Lines(content)), key, value);
    EnvIsIff(lines, Env(content)[key := value], key);
  }

  function Deleted(content: string, key: string): string {
    if Mentions(Lines(content), key) then DeleteContent(content, key) else content
  }

  /** The file that deleteEnvValue writes. */
  lemma WrittenIff(content: string, key: string)
    requires GoodKey(key)
    ensures var lines := DeleteLines(Lines(content), key);
            Env(DeleteContent(content, key)) == Env(content) - {key} <==>
            RevivesOnly(lines, Env(content) - {key}) && (Revived(lines, key) == None ==> !AnyStray(Lines(content), key))
  {
    var lines, wanted := DeleteLines(Lines(content), key), Env(content) - {key};
    LinesArePlain(content);
    DeleteKeeps(Lines(content), key);
    DeleteParsesIff(Lines(content), key);
    WithoutKey(Parse(lines), Env(content), key);
    EnvIsIff(lines, wanted, key);
  }

  lemma WithoutKey(after: map<string, string>, before: map<string, string>, key: string)
    requires AgreeBut(after, before, key)
    ensures AgreeBut(after, before - {key}, key)
    ensures Found(after, key) == Found(before - {key}, key) <==> key !in after
  {
  }

  /** On any file deleting a key removes it and nothing else, exactly when no line of it is stray and, if the file is
      written at all, whatever line loses a carriage return has the wanted value or is no key's last mention. */
  lemma DeleteIff(content: string, key: string)
    requires GoodKey(key)
    ensures var lines := DeleteLines(Lines(content), key);
            Env(Deleted(content, key)) == Env(content) - {key} <==>
            if Mentions(Lines(content), key)
            then RevivesOnly(lines, Env(content) - {key}) && (Revived(lines, key) == None ==> !AnyStray(Lines(content), key))
            else !AnyStray(Lines(content), key)
  {
    if Mentions(Lines(content), key) {
      WrittenIff(content, key);
    } else {
      DeleteParsesIff(Lines(content), key);
      NothingDeleted(Lines(content), key);
      AgreeRemoved(Env(content), Env(content), key);
    }
  }

  lemma {:induction false} NothingDeleted(lines: seq<string>, key: string)
    requires !Mentions(lines, key)
    ensures DeleteLines(lines, key) == lines
    decreases |lines|
  {
    if lines != [] {
      MentionsLast(lines, key);
      NothingDeleted(lines[..|lines| - 1], key);
      LastStays(lines, key);
    }
  }

  lemma LastStays(lines: seq<string>, key: string)
    requires lines != [] && !IsFor(lines[|lines| - 1], key)
    ensures DeleteLines(lines, key) == DeleteLines(lines[..|lines| - 1], key) + [lines[|lines| - 1]]
    ensures lines == lines[..|lines| - 1] + [lines[|lines| - 1]]
  {
  }

  lemma AgreeRemoved(after: map<string, string>, before: map<string, string>, key: string)
    requires AgreeBut(after, before, key)
    ensures after == before - {key} <==> key !in after
  {
    assert key !in after ==> after == before - {key};
  }

  lemma RevivedAppend(lines: seq<string>, line: string, key: string)
    requires Entry(line) == None || Entry(line).value.0 != key
    ensures Revived(lines + [line], key) == RevivedAmong(lines, key)
    ensures line == "" ==> RevivedAmong(lines + [line], key) == RevivedAmong(lines, key)
  {
    assert (lines + [line])[..|lines|] == lines;
  }

  /** A file whose last line ends in a carriage return sets nothing there, until another key is appended: the hidden
      assignment then holds, whatever the key had before. */
  lemma ReturnRevives(content: string, key: string, other: string, wanted: string)
    requires GoodKey(other) && GoodValue(wanted) && key != other && !Mentions(Lines(content), other)
    requires var last := Lines(content)[|Lines(content)| - 1];
             Returns(last) && Entry(Unreturned(last)).Some? && Entry(Unreturned(last)).value.0 == key
    ensures var last := Lines(content)[|Lines(content)| - 1];
            && Entry(last) == None
            && Found(Env(SetContent(content, other, wanted)), key) == Some(Entry(Unreturned(last)).value.1)
  {
    var lines, assignment := Lines(content), Assignment(other, wanted);
    ReturnHidesEntry(lines[|lines| - 1]);
    AssignmentEntry(other, wanted);
    LinesArePlain(content);
    EditsArePlain(lines, other, wanted);
    LinesOfJoin(lines + [""] + [assignment]);
    ParseResplit(lines + [""] + [assignment], key);
    RevivedAppend(lines + [""], assignment, key);
    RevivedAppend(lines, "", key);
  }

  lemma OtherLine(key: string, value: string, other: string)
    requires GoodKey(key) && GoodValue(value) && GoodKey(other) && key != other
    ensures !IsFor(Assignment(key, value), other) && !IsFor(Assignment(key, value) + "\r", other)
  {
    AssignmentSplits(key, value);
    TrimNothing(key);
    FirstEqualsIs(key, value + "\r");
    assert Assignment(key, value) + "\r" == key + "=" + (value + "\r");
    if IsFor(Assignment(key, value), other) {
      IsForMeans(Assignment(key, value), other);
    }
    if IsFor(Assignment(key, value) + "\r", other) {
      IsForMeans(Assignment(key, value) + "\r", other);
    }
  }

  // ---------------------------------------------------------------- edits in sequence

  lemma SteadySet(content: string, key: string, value: string)
    requires GoodKey(key) && GoodValue(value) && Steady(Lines(content))
    ensures Lines(SetContent(content, key, value)) == SetLines(Lines(content), key, value)
    ensures Steady(SetLines(Lines(content), key, value))
  {
    EditsArePlain(Lines(content), key, value);
    LinesOfJoin(SetLines(Lines(content), key, value));
    SteadyStays(SetLines(Lines(content), key, value));
  }

  /** Sets of different keys commute, as the parse sees them: in a file without stray carriage returns even line by
      line if it mentions one of the two. */
  lemma SetsCommute(content: string, k: string, v: string, l: string, w: string)
    requires Steady(Lines(content)) && GoodKey(k) && GoodValue(v) && GoodKey(l) && GoodValue(w) && k != l
    ensures Env(SetContent(SetContent(content, k, v), l, w)) == Env(SetContent(SetContent(content, l, w), k, v))
    ensures Mentions(Lines(content), k) || Mentions(Lines(content), l) ==>
              SetContent(SetContent(content, k, v), l, w) == SetContent(SetContent(content, l, w), k, v)
  {
    var lines := Lines(content);
    SteadySet(content, k, v);
    SteadySet(content, l, w);
    SteadySet(SetContent(content, k, v), l, w);
    SteadySet(SetContent(content, l, w), k, v);
    SetMentions(lines, k, v, l);
    SetMentions(lines, l, w, k);
    if Mentions(lines, k) && Mentions(lines, l) {
      ReplacementsCommute(lines, k, v, l, w);
    } else if Mentions(lines, k) {
      ReplaceThenAppend(lines, k, v, l, w);
    } else if Mentions(lines, l) {
      ReplaceThenAppend(lines, l, w, k, v);
    } else {
      Appended(lines, k, v);
      Appended(lines, l, w);
      Appended(SetLines(lines, k, v), l, w);
      Appended(SetLines(lines, l, w), k, v);
      UpdatesCommute(Parse(lines), k, v, l, w);
    }
  }

  lemma UpdatesCommute(m: map<string, string>, k: string, v: string, l: string, w: string)
    requires k != l
    ensures m[k := v][l := w] == m[l := w][k := v]
  {
  }

  /** Setting one key leaves the lines of another as they are. */
  lemma SetMentions(lines: seq<string>, k: string, v: string, l: string)
    requires GoodKey(k) && GoodValue(v) && GoodKey(l) && k != l
    ensures Mentions(SetLines(lines, k, v), l) <==> Mentions(lines, l)
  {
    OtherLine(k, v, l);
    BlankIsForNothing(l);
    var edited := SetLines(lines, k, v);
    if Mentions(lines, l) {
      var i :| 0 <= i < |lines| && IsFor(lines[i], l);
      if IsFor(lines[i], k) {
        LineOfOne(lines[i], k, l);
      }
      assert IsFor(edited[i], l);
    }
    if Mentions(edited, l) {
      var i :| 0 <= i < |edited| && IsFor(edited[i], l);
      assert i < |lines| && edited[i] == lines[i];
    }
  }

  lemma LineOfOne(line: string, k: string, l: string)
    requires GoodKey(k) && GoodKey(l) && IsFor(line, k) && IsFor(line, l)
    ensures k == l
  {
    IsForMeans(line, k);
    IsForMeans(line, l);
  }

  lemma BlankIsForNothing(key: string)
    ensures !IsFor("", key)
  {
  }

  lemma ReplacementsCommute(lines: seq<string>, k: string, v: string, l: string, w: string)
    requires GoodKey(k) && GoodValue(v) && GoodKey(l) && GoodValue(w) && k != l
    ensures Replaced(Replaced(lines, k, v), l, w) == Replaced(Replaced(lines, l, w), k, v)
  {
    OtherLine(k, v, l);
    OtherLine(l, w, k);
    forall i | 0 <= i < |lines|
      ensures !(IsFor(lines[i], k) && IsFor(lines[i], l))
    {
      if IsFor(lines[i], k) && IsFor(lines[i], l) {
        LineOfOne(lines[i], k, l);
      }
    }
  }

  lemma ReplacedConcat(a: seq<string>, b: seq<string>, key: string, value: string)
    ensures Replaced(a + b, key, value) == Replaced(a, key, value) + Replaced(b, key, value)
  {
  }

  function Tail(lines: seq<string>, key: string, value: string): seq<string> {
    (if lines != [] && lines[|lines| - 1] != "" then [""] else []) + [Assignment(key, value)]
  }

  lemma SetAppends(lines: seq<string>, key: string, value: string)
    requires !Mentions(lines, key)
    ensures SetLines(lines, key, value) == lines + Tail(lines, key, value)
  {
    assert (lines + [""]) + [Assignment(key, value)] == lines + ([""] + [Assignment(key, value)]);
    assert (lines + []) + [Assignment(key, value)] == lines + ([] + [Assignment(key, value)]);
  }

  lemma TailUnreplaced(lines: seq<string>, k: string, v: string, l: string, w: string)
    requires GoodKey(k) && GoodKey(l) && GoodValue(w) && k != l
    ensures Replaced(Tail(lines, l, w), k, v) == Tail(lines, l, w)
    ensures Tail(Replaced(lines, k, v), l, w) == Tail(lines, l, w)
  {
    OtherLine(l, w, k);
    BlankIsForNothing(k);
    if lines != [] {
      ReplacedLast(lines, k, v);
    }
    assert |Assignment(k, v)| > 0;
  }

  lemma ReplaceThenAppend(lines: seq<string>, k: string, v: string, l: string, w: string)
    requires GoodKey(k) && GoodValue(v) && GoodKey(l) && GoodValue(w) && k != l
    requires Mentions(lines, k) && !Mentions(lines, l)
    requires !Mentions(SetLines(lines, k, v), l) && Mentions(SetLines(lines, l, w), k)
    ensures SetLines(SetLines(lines, k, v), l, w) == SetLines(SetLines(lines, l, w), k, v)
  {
    SetAppends(lines, l, w);
    SetAppends(Replaced(lines, k, v), l, w);
    ReplacedConcat(lines, Tail(lines, l, w), k, v);
    TailUnreplaced(lines, k, v, l, w);
  }

  /** A deletion after a set gives the parse without the key, exactly when no line of the key is stray. */
  lemma DeleteAfterSet(content: string, key: string, value: string)
    requires Steady(Lines(content)) && GoodKey(key) && GoodValue(value)
    ensures Env(DeleteContent(SetContent(content, key, value), key)) == Env(content) - {key} <==>
            !AnyStray(Lines(content), key)
  {
    var lines := Lines(content);
    var edited := SetLines(lines, key, value);
    SteadySet(content, key, value);
    DeleteKeeps(edited, key);
    EnvOfJoin(DeleteLines(edited, key));
    DeleteParsesIff(edited, key);
    SetAgrees(lines, key, value);
    SetKeepsStrays(lines, key, value);
    var after := Env(DeleteContent(SetContent(content, key, value), key));
    assert AgreeBut(after, Env(content), key);
    AgreeRemoved(after, Env(content), key);
  }

  lemma StrayAppend(lines: seq<string>, line: string, key: string)
    ensures AnyStray(lines + [line], key) <==> AnyStray(lines, key) || Stray(line, key)
  {
    assert (lines + [line])[..|lines|] == lines;
  }

  lemma {:induction false} ReplacedStrays(lines: seq<string>, key: string, value: string)
    requires GoodKey(key) && GoodValue(value)
    ensures AnyStray(Replaced(lines, key, value), key) <==> AnyStray(lines, key)
    decreases |lines|
  {
    if lines != [] {
      ReplacedStrays(lines[..|lines| - 1], key, value);
      ReplacedLast(lines, key, value);
      AssignmentEntry(key, value);
    }
  }

  lemma SetKeepsStrays(lines: seq<string>, key: string, value: string)
    requires GoodKey(key) && GoodValue(value)
    ensures AnyStray(SetLines(lines, key, value), key) <==> AnyStray(lines, key)
  {
    if Mentions(lines, key) {
      ReplacedStrays(lines, key, value);
    } else {
      AssignmentEntry(key, value);
      StrayAppend(lines, Assignment(key, value), key);
      StrayAppend(lines, "", key);
      StrayAppend(lines + [""], Assignment(key, value), key);
      assert lines + [] == lines;
    }
  }

  function DeletedInTurn(content: string, keys: seq<string>): string
    decreases |keys|
  {
    if keys == [] then content else DeletedInTurn(DeleteContent(content, keys[0]), keys[1..])
  }

  ghost predicate AnyOfStray(lines: seq<string>, keys: seq<string>) {
    exists key :: key in keys && AnyStray(lines, key)
  }

  /** Deleting keys one after another removes exactly those, exactly when no line of any is stray. */
  lemma InTurnRemovesAll(content: string, keys: seq<string>)
    requires Steady(Lines(content)) && forall key :: key in keys ==> GoodKey(key)
    ensures Env(DeletedInTurn(content, keys)) == Env(content) - (set key | key in keys) <==> !AnyOfStray(Lines(content), keys)
  {
    var after, wanted := Env(DeletedInTurn(content, keys)), Env(content) - (set key | key in keys);
    SameFound(after, wanted);
    forall q
      ensures q !in keys ==> Found(after, q) == Found(wanted, q)
      ensures q in keys ==> (Found(after, q) == Found(wanted, q) <==> !AnyStray(Lines(content), q))
    {
      InTurn(content, keys, q);
    }
  }

  /** What deletions in turn make of one key. */
  lemma {:induction false} InTurn(content: string, keys: seq<string>, q: string)
    requires Steady(Lines(content)) && forall key :: key in keys ==> GoodKey(key)
    ensures var after := Env(DeletedInTurn(content, keys));
            if q in keys then q in after <==> AnyStray(Lines(content), q) else Found(after, q) == Found(Env(content), q)
    decreases |keys|
  {
    if keys != [] {
      var k, lines := keys[0], Lines(content);
      DeleteKeeps(lines, k);
      var left := DeleteLines(lines, k);
      LinesOfJoin(left);
      SteadyStays(left);
      EnvOfJoin(left);
      InTurn(DeleteContent(content, k), keys[1..], q);
      DeleteParsesIff(lines, k);
      BlankNeverStray(q);
      if q in keys {
        DeleteKeepsStrays(lines, k, q);
      }
      assert q in keys <==> q == k || q in keys[1..];
    }
  }

  lemma BlankNeverStray(key: string)
    ensures !AnyStray([""], key) && !AnyStray([], key)
  {
    StrayAppend([], "", key);
    assert [] + [""] == [""];
  }

  lemma {:induction false} DeleteKeepsStrays(lines: seq<string>, k: string, q: string)
    requires GoodKey(k) && GoodKey(q)
    ensures AnyStray(DeleteLines(lines, k), q) <==> AnyStray(lines, q)
    decreases |lines|
  {
    if lines != [] {
      var init, last := lines[..|lines| - 1], lines[|lines| - 1];
      DeleteKeepsStrays(init, k, q);
      if IsFor(last, k) {
        assert DeleteLines(lines, k) == DeleteLines(init, k);
        if Entry(last).Some? {
          EntryKey(last, k);
        }
      } else {
        StrayAppend(DeleteLines(init, k), last, q);
      }
    }
  }
}
