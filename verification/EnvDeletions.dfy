/** deleteEnvValue calls launched without waiting: each reads the file and later writes it, in any interleaving. */
module EnvDeletions {
  import opened Outcomes
  import opened Texts
  import opened EnvFile
  import opened EnvEdits

  /** Each deletion reads the file once and later writes what it made of it. */
  datatype Part = Read(key: string) | Write(key: string)

  datatype Disk = Disk(file: string, snapshots: map<string, string>)

  function Played(d: Disk, part: Part): Disk {
    match part
    case Read(key) => d.(snapshots := d.snapshots[key := d.file])
    case Write(key) =>
      if key in d.snapshots && Mentions(Lines(d.snapshots[key]), key)
      then d.(file := DeleteContent(d.snapshots[key], key)) else d
  }

  function PlayedAll(d: Disk, parts: seq<Part>): Disk
    decreases |parts|
  {
    if parts == [] then d else PlayedAll(Played(d, parts[0]), parts[1..])
  }

  function Reads(keys: seq<string>): seq<Part> {
    seq(|keys|, i requires 0 <= i < |keys| => Read(keys[i]))
  }

  function Writes(keys: seq<string>): seq<Part> {
    seq(|keys|, i requires 0 <= i < |keys| => Write(keys[i]))
  }

  lemma {:induction false} ReadsSeeSame(d: Disk, keys: seq<string>)
    ensures var e := PlayedAll(d, Reads(keys));
            && e.file == d.file
            && (forall key :: key in e.snapshots <==> key in d.snapshots || key in keys)
            && (forall key :: key in keys ==> e.snapshots[key] == d.file)
            && (forall key :: key in d.snapshots && key !in keys ==> e.snapshots[key] == d.snapshots[key])
    decreases |keys|
  {
    if keys != [] {
      assert Reads(keys)[0] == Read(keys[0]) && Reads(keys)[1..] == Reads(keys[1..]);
      assert keys == [keys[0]] + keys[1..];
      ReadsSeeSame(Played(d, Read(keys[0])), keys[1..]);
    }
  }

  // ---------------------------------------------------------------- what any interleaving leaves

  lemma {:induction false} DeletedInTurnAppend(content: string, keys: seq<string>, key: string)
    ensures DeletedInTurn(content, keys + [key]) == DeleteContent(DeletedInTurn(content, keys), key)
    decreases |keys|
  {
    if keys == [] {
      assert [] + [key] == [key] && [key][1..] == [];
      assert DeletedInTurn(content, [key]) == DeletedInTurn(DeleteContent(content, key), []);
    } else {
      assert (keys + [key])[0] == keys[0] && (keys + [key])[1..] == keys[1..] + [key];
      DeletedInTurnAppend(DeleteContent(content, keys[0]), keys[1..], key);
    }
  }

  lemma {:induction false} TrimStartReturn(s: string)
    ensures TrimStart(s + "\r") == if TrimStart(s) == "" then "" else TrimStart(s) + "\r"
    decreases |s|
  {
    if s == "" {
      assert "" + "\r" == "\r" && "\r"[1..] == "";
    } else if Blank(s[0]) {
      assert (s + "\r")[1..] == s[1..] + "\r";
      TrimStartReturn(s[1..]);
    }
  }

  /** A carriage return at the end hides an entry from the parse, not a line from the edits. */
  lemma ReturnKeepsKey(line: string, key: string)
    ensures IsFor(Unreturned(line), key) <==> IsFor(line, key)
  {
    if Returns(line) {
      var s := line[..|line| - 1];
      assert line == s + "\r";
      TrimStartReturn(s);
      var t := TrimStart(s);
      assert (t + "\r")[..|t + "\r"| - 1] == t;
      assert Trim(line) == Trim(s);
    }
  }

  lemma {:induction false} UnreturnedMentions(lines: seq<string>, key: string)
    ensures Mentions(AllUnreturned(lines), key) <==> Mentions(lines, key)
    decreases |lines|
  {
    if lines != [] {
      var last := lines[|lines| - 1];
      UnreturnedMentions(lines[..|lines| - 1], key);
      ReturnKeepsKey(last, key);
      MentionsLast(lines, key);
      MentionsAppend(AllUnreturned(lines[..|lines| - 1]), Unreturned(last), key);
    }
  }

  lemma MentionsAppend(lines: seq<string>, line: string, key: string)
    ensures Mentions(lines + [line], key) <==> Mentions(lines, key) || IsFor(line, key)
  {
    MentionsLast(lines + [line], key);
    assert (lines + [line])[..|lines|] == lines;
  }

  lemma ResplitMentions(lines: seq<string>, key: string)
    ensures Mentions(Resplit(lines), key) <==> Mentions(lines, key)
  {
    BlankIsForNothing(key);
    if lines != [] {
      UnreturnedMentions(lines[..|lines| - 1], key);
      MentionsLast(lines, key);
      MentionsAppend(AllUnreturned(lines[..|lines| - 1]), lines[|lines| - 1], key);
    }
  }

  lemma {:induction false} DeleteMentions(lines: seq<string>, k: string, q: string)
    requires GoodKey(k) && GoodKey(q)
    ensures Mentions(DeleteLines(lines, k), q) <==> Mentions(lines, q) && q != k
    decreases |lines|
  {
    if lines != [] {
      var last := lines[|lines| - 1];
      DeleteMentions(lines[..|lines| - 1], k, q);
      MentionsLast(lines, q);
      if IsFor(last, k) {
        assert DeleteLines(lines, k) == DeleteLines(lines[..|lines| - 1], k);
        if IsFor(last, q) {
          LineOfOne(last, k, q);
        }
      } else {
        MentionsAppend(DeleteLines(lines[..|lines| - 1], k), last, q);
      }
    }
  }

  predicate GoodKeys(keys: seq<string>) {
    forall key :: key in keys ==> GoodKey(key)
  }

  /** Deletions in turn take away the mentions of their keys and no others, in any file. */
  lemma {:induction false} InTurnMentions(content: string, keys: seq<string>, q: string)
    requires GoodKeys(keys) && GoodKey(q)
    ensures Mentions(Lines(DeletedInTurn(content, keys)), q) <==> Mentions(Lines(content), q) && q !in keys
    decreases |keys|
  {
    if keys != [] {
      var k := keys[0];
      LinesArePlain(content);
      DeleteKeeps(Lines(content), k);
      LinesOfJoin(DeleteLines(Lines(content), k));
      ResplitMentions(DeleteLines(Lines(content), k), q);
      DeleteMentions(Lines(content), k, q);
      InTurnMentions(DeleteContent(content, k), keys[1..], q);
      assert q in keys <==> q == k || q in keys[1..];
    }
  }

  /** The deletions the file stands for, and those it stood for when each key was read. */
  datatype Chain = Chain(done: seq<string>, seen: map<string, seq<string>>)

  function Linked(content: string, c: Chain, part: Part): Chain {
    match part
    case Read(key) => c.(seen := c.seen[key := c.done])
    case Write(key) =>
      if key in c.seen && key !in c.seen[key] && Mentions(Lines(content), key) then c.(done := c.seen[key] + [key]) else c
  }

  function LinkedAll(content: string, c: Chain, parts: seq<Part>): Chain
    decreases |parts|
  {
    if parts == [] then c else LinkedAll(content, Linked(content, c, parts[0]), parts[1..])
  }

  ghost predicate Follows(content: string, d: Disk, c: Chain) {
    && d.file == DeletedInTurn(content, c.done) && GoodKeys(c.done)
    && d.snapshots.Keys == c.seen.Keys
    && forall key :: key in c.seen ==> d.snapshots[key] == DeletedInTurn(content, c.seen[key]) && GoodKeys(c.seen[key])
  }

  lemma LinkFollows(content: string, d: Disk, c: Chain, part: Part)
    requires Follows(content, d, c) && GoodKey(part.key)
    ensures Follows(content, Played(d, part), Linked(content, c, part))
  {
    if part.Write? && part.key in c.seen {
      InTurnMentions(content, c.seen[part.key], part.key);
      DeletedInTurnAppend(content, c.seen[part.key], part.key);
    }
  }

  /** Whatever the interleaving, the file is that of the deletions of one chain in turn: a write makes the chain the one
      its read saw and its own key, and drops what has been written in between. */
  lemma {:induction false} ChainOfDeletions(content: string, d: Disk, c: Chain, parts: seq<Part>)
    requires Follows(content, d, c) && forall part :: part in parts ==> GoodKey(part.key)
    ensures Follows(content, PlayedAll(d, parts), LinkedAll(content, c, parts))
    decreases |parts|
  {
    if parts != [] {
      assert parts[0] in parts && forall part :: part in parts[1..] ==> part in parts;
      LinkFollows(content, d, c, parts[0]);
      ChainOfDeletions(content, Played(d, parts[0]), Linked(content, c, parts[0]), parts[1..]);
    }
  }

  /** Each key is read once and later written once; `open` are read and not written yet, `past` written. */
  ghost predicate Proper(parts: seq<Part>, open: set<string>, past: set<string>)
    decreases |parts|
  {
    if parts == [] then open == {}
    else match parts[0]
      case Read(key) => key !in open + past && Proper(parts[1..], open + {key}, past)
      case Write(key) => key in open && Proper(parts[1..], open - {key}, past + {key})
  }

  /** A key the file mentions is read while another such key is between its read and its write. */
  ghost predicate Overlap(content: string, parts: seq<Part>, open: set<string>)
    decreases |parts|
  {
    parts != []
    && match parts[0]
       case Read(key) =>
         || (Mentions(Lines(content), key) && exists other :: other in open && Mentions(Lines(content), other))
         || Overlap(content, parts[1..], open + {key})
       case Write(key) => Overlap(content, parts[1..], open - {key})
  }

  function KeysOf(parts: seq<Part>): set<string> {
    set part | part in parts :: part.key
  }

  /** The chain holds every one of these keys that the file mentions. */
  ghost predicate Covers(content: string, chain: seq<string>, keys: set<string>) {
    forall key :: key in keys && Mentions(Lines(content), key) ==> key in chain
  }

  /** Chains consist of keys already written. */
  ghost predicate Grounded(content: string, c: Chain, open: set<string>, past: set<string>) {
    && open !! past
    && (forall key :: key in c.done ==> key in past)
    && forall key :: key in open ==> key in c.seen && forall other :: other in c.seen[key] ==> other in past
  }

  /** So far no two have overlapped. */
  ghost predicate Serial(content: string, c: Chain, open: set<string>, past: set<string>) {
    && Covers(content, c.done, past)
    && (forall key, other :: key in open && other in open && Mentions(Lines(content), key) && Mentions(Lines(content), other) ==> key == other)
    && forall key :: key in open && Mentions(Lines(content), key) ==> key in c.seen && Covers(content, c.seen[key], past)
  }

  /** Some key is lost, now and after whichever write comes next. */
  ghost predicate Lossy(content: string, c: Chain, open: set<string>, past: set<string>) {
    && !Covers(content, c.done, open + past)
    && forall key :: key in open && Mentions(Lines(content), key) ==>
         key in c.seen && !Covers(content, c.seen[key] + [key], open + past)
  }

  lemma {:induction false} LossyStays(content: string, c: Chain, parts: seq<Part>, open: set<string>, past: set<string>)
    requires Proper(parts, open, past) && Grounded(content, c, open, past) && Lossy(content, c, open, past)
    ensures !Covers(content, LinkedAll(content, c, parts).done, open + past + KeysOf(parts))
    decreases |parts|
  {
    if parts == [] {
      assert open + past + KeysOf(parts) == open + past;
    } else {
      var key := parts[0].key;
      KeysOfHead(parts);
      if parts[0].Read? {
        LossyRead(content, c, key, open, past);
        LossyStays(content, Linked(content, c, parts[0]), parts[1..], open + {key}, past);
        assert open + past + KeysOf(parts) == (open + {key}) + past + KeysOf(parts[1..]);
      } else {
        LossyWrite(content, c, key, open, past);
        LossyStays(content, Linked(content, c, parts[0]), parts[1..], open - {key}, past + {key});
        assert open + past + KeysOf(parts) == (open - {key}) + (past + {key}) + KeysOf(parts[1..]);
      }
    }
  }

  lemma KeysOfHead(parts: seq<Part>)
    requires parts != []
    ensures KeysOf(parts) == {parts[0].key} + KeysOf(parts[1..])
  {
    assert parts == [parts[0]] + parts[1..];
  }

  lemma LossyRead(content: string, c: Chain, key: string, open: set<string>, past: set<string>)
    requires key !in open + past && Grounded(content, c, open, past) && Lossy(content, c, open, past)
    ensures var t := Linked(content, c, Read(key)); Grounded(content, t, open + {key}, past) && Lossy(content, t, open + {key}, past)
  {
    var lost :| lost in open + past && Mentions(Lines(content), lost) && lost !in c.done;
    assert lost in open + {key} + past && lost !in c.done + [key];
    var t := Linked(content, c, Read(key));
    forall k | k in open + {key} && Mentions(Lines(content), k)
      ensures !Covers(content, t.seen[k] + [k], open + {key} + past)
    {
      if k != key {
        var gone :| gone in open + past && Mentions(Lines(content), gone) && gone !in c.seen[k] + [k];
        assert gone in open + {key} + past && t.seen[k] == c.seen[k];
      }
    }
  }

  lemma LossyWrite(content: string, c: Chain, key: string, open: set<string>, past: set<string>)
    requires key in open && Grounded(content, c, open, past) && Lossy(content, c, open, past)
    ensures var t := Linked(content, c, Write(key));
            Grounded(content, t, open - {key}, past + {key}) && Lossy(content, t, open - {key}, past + {key})
  {
    assert (open - {key}) + (past + {key}) == open + past;
  }

  /** In a run of deletions that has been serial so far. */
  lemma {:induction false} SerialCoversIff(content: string, c: Chain, parts: seq<Part>, open: set<string>, past: set<string>)
    requires Proper(parts, open, past) && Grounded(content, c, open, past) && Serial(content, c, open, past)
    ensures Covers(content, LinkedAll(content, c, parts).done, open + past + KeysOf(parts)) <==> !Overlap(content, parts, open)
    decreases |parts|
  {
    if parts == [] {
      assert open + past + KeysOf(parts) == past;
    } else {
      var key := parts[0].key;
      var t := Linked(content, c, parts[0]);
      KeysOfHead(parts);
      if parts[0].Write? {
        SerialWrite(content, c, key, open, past);
        SerialCoversIff(content, t, parts[1..], open - {key}, past + {key});
        assert open + past + KeysOf(parts) == (open - {key}) + (past + {key}) + KeysOf(parts[1..]);
      } else {
        assert open + past + KeysOf(parts) == (open + {key}) + past + KeysOf(parts[1..]);
        if Mentions(Lines(content), key) && exists other :: other in open && Mentions(Lines(content), other) {
          SerialBreaks(content, c, key, open, past);
          LossyStays(content, t, parts[1..], open + {key}, past);
        } else {
          SerialRead(content, c, key, open, past);
          SerialCoversIff(content, t, parts[1..], open + {key}, past);
        }
      }
    }
  }

  lemma SerialRead(content: string, c: Chain, key: string, open: set<string>, past: set<string>)
    requires key !in open + past && Grounded(content, c, open, past) && Serial(content, c, open, past)
    requires !(Mentions(Lines(content), key) && exists other :: other in open && Mentions(Lines(content), other))
    ensures var t := Linked(content, c, Read(key)); Grounded(content, t, open + {key}, past) && Serial(content, t, open + {key}, past)
  {
  }

  lemma SerialWrite(content: string, c: Chain, key: string, open: set<string>, past: set<string>)
    requires key in open && Grounded(content, c, open, past) && Serial(content, c, open, past)
    ensures var t := Linked(content, c, Write(key));
            Grounded(content, t, open - {key}, past + {key}) && Serial(content, t, open - {key}, past + {key})
  {
  }

  lemma SerialBreaks(content: string, c: Chain, key: string, open: set<string>, past: set<string>)
    requires key !in open + past && Grounded(content, c, open, past) && Serial(content, c, open, past)
    requires Mentions(Lines(content), key) && exists other :: other in open && Mentions(Lines(content), other)
    ensures var t := Linked(content, c, Read(key)); Grounded(content, t, open + {key}, past) && Lossy(content, t, open + {key}, past)
  {
    var other :| other in open && Mentions(Lines(content), other);
    var t := Linked(content, c, Read(key));
    assert key !in c.done && other !in c.done;
    forall k | k in open + {key} && Mentions(Lines(content), k)
      ensures !Covers(content, t.seen[k] + [k], open + {key} + past)
    {
      if k == key {
        assert other in open + {key} + past && other !in t.seen[k] + [k];
      } else {
        assert t.seen[k] == c.seen[k] && key !in t.seen[k] + [k];
      }
    }
  }

  /** Deletions launched without waiting take all their keys out of a file, whatever the file and the interleaving,
      exactly when no key it mentions is read while another is between its read and its write. */
  lemma AllGoneIff(content: string, parts: seq<Part>)
    requires Proper(parts, {}, {}) && forall part :: part in parts ==> GoodKey(part.key)
    ensures var after := PlayedAll(Disk(content, map[]), parts).file;
            (forall key :: key in KeysOf(parts) ==> !Mentions(Lines(after), key)) <==> !Overlap(content, parts, {})
  {
    var c := Chain([], map[]);
    ChainOfDeletions(content, Disk(content, map[]), c, parts);
    SerialCoversIff(content, c, parts, {}, {});
    var done := LinkedAll(content, c, parts).done;
    assert {} + {} + KeysOf(parts) == KeysOf(parts);
    forall key | key in KeysOf(parts)
      ensures Mentions(Lines(DeletedInTurn(content, done)), key) <==> Mentions(Lines(content), key) && key !in done
    {
      InTurnMentions(content, done, key);
    }
  }

  lemma ChainIsAmong(content: string, c: Chain, parts: seq<Part>, keys: set<string>)
    requires (forall key :: key in c.done ==> key in keys) && KeysOf(parts) <= keys
    requires forall k :: k in c.seen ==> forall key :: key in c.seen[k] ==> key in keys
    ensures forall key :: key in LinkedAll(content, c, parts).done ==> key in keys
    decreases |parts|
  {
    if parts != [] {
      KeysOfHead(parts);
      ChainIsAmong(content, Linked(content, c, parts[0]), parts[1..], keys);
    }
  }

  /** As the parse sees it, in a file without stray lines or carriage returns: exactly the keys of the chain go. */
  lemma ChainParses(content: string, parts: seq<Part>)
    requires Steady(Lines(content)) && forall part :: part in parts ==> GoodKey(part.key) && !AnyStray(Lines(content), part.key)
    ensures var done := LinkedAll(content, Chain([], map[]), parts).done;
            Env(PlayedAll(Disk(content, map[]), parts).file) == Env(content) - (set key | key in done)
  {
    var c := Chain([], map[]);
    var done := LinkedAll(content, c, parts).done;
    ChainOfDeletions(content, Disk(content, map[]), c, parts);
    ChainIsAmong(content, c, parts, KeysOf(parts));
    InTurnRemovesAll(content, done);
  }

  // ---------------------------------------------------------------- all read before any writes

  /** The last key of the list that the file mentions. */
  function LastMentioned(content: string, keys: seq<string>): Option<string> {
    if keys == [] then None
    else if Mentions(Lines(content), keys[|keys| - 1]) then Some(keys[|keys| - 1])
    else LastMentioned(content, keys[..|keys| - 1])
  }

  lemma {:induction false} PlayedAppend(d: Disk, a: seq<Part>, b: seq<Part>)
    ensures PlayedAll(d, a + b) == PlayedAll(PlayedAll(d, a), b)
    decreases |a|
  {
    if a == [] {
      assert a + b == b;
    } else {
      assert (a + b)[0] == a[0] && (a + b)[1..] == a[1..] + b;
      PlayedAppend(Played(d, a[0]), a[1..], b);
    }
  }

  lemma OneWrite(e: Disk, content: string, key: string)
    requires key in e.snapshots && e.snapshots[key] == content
    ensures var after := PlayedAll(e, [Write(key)]);
            after.snapshots == e.snapshots && after.file == if Mentions(Lines(content), key) then DeleteContent(content, key) else e.file
  {
    assert [Write(key)][1..] == [];
    assert PlayedAll(e, [Write(key)]) == PlayedAll(Played(e, Write(key)), []);
  }

  lemma WritesAppend(d: Disk, keys: seq<string>, key: string)
    ensures PlayedAll(d, Writes(keys + [key])) == PlayedAll(PlayedAll(d, Writes(keys)), [Write(key)])
  {
    assert Writes(keys + [key]) == Writes(keys) + [Write(key)];
    PlayedAppend(d, Writes(keys), [Write(key)]);
  }

  lemma {:induction false} WritesLast(d: Disk, content: string, keys: seq<string>)
    requires forall key :: key in keys ==> key in d.snapshots && d.snapshots[key] == content
    ensures var last, e := LastMentioned(content, keys), PlayedAll(d, Writes(keys));
            && e.snapshots == d.snapshots
            && e.file == if last.Some? then DeleteContent(content, last.value) else d.file
    decreases |keys|
  {
    if keys != [] {
      var init, last := keys[..|keys| - 1], keys[|keys| - 1];
      WritesLast(d, content, init);
      assert keys == init + [last];
      WritesAppend(d, init, last);
      OneWrite(PlayedAll(d, Writes(init)), content, last);
    }
  }

  /** Deletions that all read before any writes: whatever the file and the keys, it ends as after the deletion of the
      last key it mentions alone, and the others are lost. */
  lemma OverlapRemovesOne(content: string, keys: seq<string>)
    ensures var last := LastMentioned(content, keys);
            PlayedAll(Disk(content, map[]), Reads(keys) + Writes(keys)).file ==
            if last.Some? then Deleted(content, last.value) else content
    ensures LastMentioned(content, keys) == None <==> forall key :: key in keys ==> !Mentions(Lines(content), key)
  {
    var d := Disk(content, map[]);
    ReadsSeeSame(d, keys);
    PlayedAppend(d, Reads(keys), Writes(keys));
    WritesLast(PlayedAll(d, Reads(keys)), content, keys);
    LastIsMentioned(content, keys);
  }

  lemma {:induction false} LastIsMentioned(content: string, keys: seq<string>)
    ensures var last := LastMentioned(content, keys);
            if last.Some? then last.value in keys && Mentions(Lines(content), last.value)
            else forall key :: key in keys ==> !Mentions(Lines(content), key)
  {
    if keys != [] {
      LastIsMentioned(content, keys[..|keys| - 1]);
    }
  }

  /** So of two keys, overlapping deletions leave the first in any file that mentions the second. */
  lemma OverlapLosesOne(content: string, k: string, l: string)
    requires GoodKey(l) && k != l && k in Env(content) && Mentions(Lines(content), l)
    ensures k in Env(PlayedAll(Disk(content, map[]), Reads([k, l]) + Writes([k, l])).file)
  {
    OverlapRemovesOne(content, [k, l]);
    assert LastMentioned(content, [k, l]) == Some(l);
    var lines := DeleteLines(Lines(content), l);
    LinesArePlain(content);
    DeleteKeeps(Lines(content), l);
    DeleteParsesIff(Lines(content), l);
    LinesOfJoin(lines);
    ParseResplit(lines, k);
    assert Found(Env(DeleteContent(content, l)), k).Some?;
  }
}
