/** The lines of an authorized_keys file, some of them tagged: edits that leave every other line alone,
    and when taking the tagged ones away still leaves someone able to log in. */
module AuthorizedKeys {
  import opened Strings

  /******* Lines *******/

  function WithoutNewlines(content: string): string {
    if content != "" && content[|content| - 1] == '\n' then WithoutNewlines(content[..|content| - 1]) else content
  }

  function Lines(content: string): seq<string> {
    var trimmed := WithoutNewlines(content);
    if trimmed == "" then [] else Split(trimmed, '\n')
  }

  function Unlines(lines: seq<string>): string {
    if lines == [] then "" else lines[0] + "\n" + Unlines(lines[1..])
  }

  /** The whitespace-separated words of a line. */
  function Tokens(s: string): seq<string>
    decreases |s|
  {
    if s == "" then []
    else if IsSpace(s[0]) then Tokens(s[1..])
    else
      var n := TokenLength(s);
      [s[..n]] + Tokens(s[n..])
  }

  function TokenLength(s: string): (n: nat)
    ensures n <= |s| && (s != "" && !IsSpace(s[0]) ==> n > 0)
  {
    if s == "" || IsSpace(s[0]) then 0 else 1 + TokenLength(s[1..])
  }

  function Token(s: string, i: nat): string {
    if i < |Tokens(s)| then Tokens(s)[i] else ""
  }

  predicate StartsWith(s: string, prefix: string) { prefix <= s }

  predicate EndsWith(s: string, suffix: string) {
    |suffix| <= |s| && s[|s| - |suffix|..] == suffix
  }

  predicate Includes(s: string, part: string) {
    exists i :: 0 <= i <= |s| && part <= s[i..]
  }

  predicate IsKeyType(token: string) {
    StartsWith(token, "ssh-") || StartsWith(token, "ecdsa-sha2-") || StartsWith(token, "sk-ssh-") || StartsWith(token, "sk-ecdsa-")
  }

  /** The line authorizes some key: it has a type and data, maybe behind one field of options. */
  predicate IsKeyLine(line: string) {
    var t := Trim(line);
    if t == "" || t[0] == '#' then false
    else if IsKeyType(Token(t, 0)) then Token(t, 1) != ""
    else IsKeyType(Token(t, 1)) && Token(t, 2) != ""
  }

  predicate IsOpsLine(line: string, tag: string) {
    var t := Trim(line);
    t != "" && t[0] != '#' && (EndsWith(t, " " + tag) || t == tag)
  }

  /******* Edits *******/

  function Ops(lines: seq<string>, tag: string): seq<string> {
    if lines == [] then [] else (if IsOpsLine(lines[0], tag) then [lines[0]] else []) + Ops(lines[1..], tag)
  }

  function Others(lines: seq<string>, tag: string): seq<string> {
    if lines == [] then [] else (if IsOpsLine(lines[0], tag) then [] else [lines[0]]) + Others(lines[1..], tag)
  }

  function Upsert(content: string, line: string, tag: string): string {
    Unlines(Others(Lines(content), tag) + [line])
  }

  predicate Changed(content: string, line: string) {
    !(exists l :: l in Lines(content) && Trim(l) == Trim(line))
  }

  function Remove(content: string, tag: string): string {
    Unlines(Others(Lines(content), tag))
  }

  function Removed(content: string, tag: string): nat {
    |Ops(Lines(content), tag)|
  }

  /** A line for the file: one line of text, with the tag at its end. */
  predicate IsLine(line: string, tag: string) {
    '\n' !in line && IsOpsLine(line, tag)
  }

  lemma {:induction false} PartsHaveNoNewline(content: string, i: nat)
    requires i < |Split(content, '\n')|
    ensures '\n' !in Split(content, '\n')[i]
  {
    if content != "" {
      var rest := Split(content[1..], '\n');
      if content[0] == '\n' {
        if i > 0 { PartsHaveNoNewline(content[1..], i - 1); }
      } else {
        PartsHaveNoNewline(content[1..], i);
      }
    }
  }

  lemma UnlinesCons(first: string, rest: seq<string>)
    ensures Unlines([first] + rest) == first + "\n" + Unlines(rest)
  {
    assert ([first] + rest)[1..] == rest;
  }

  lemma FirstLetter(c: char, line: string, rest: string)
    ensures ([c] + line) + "\n" + rest == [c] + (line + "\n" + rest)
  {
  }

  lemma {:induction false} UnlinesSplit(content: string)
    ensures Unlines(Split(content, '\n')) == content + "\n"
  {
    if content == "" {
      UnlinesCons("", []);
    } else {
      UnlinesSplit(content[1..]);
      var c, rest := content[0], Split(content[1..], '\n');
      FirstLetter(c, content[1..], "");
      assert content == [c] + content[1..];
      if c == '\n' {
        UnlinesCons("", rest);
      } else {
        UnlinesCons([c] + rest[0], rest[1..]);
        UnlinesCons(rest[0], rest[1..]);
        assert rest == [rest[0]] + rest[1..];
        FirstLetter(c, rest[0], Unlines(rest[1..]));
      }
    }
  }

  lemma {:induction false} SplitLines(content: string)
    ensures forall l :: l in Split(content, '\n') ==> '\n' !in l
    ensures Unlines(Split(content, '\n')) == content + "\n"
  {
    UnlinesSplit(content);
    forall l | l in Split(content, '\n') ensures '\n' !in l {
      var i :| 0 <= i < |Split(content, '\n')| && Split(content, '\n')[i] == l;
      PartsHaveNoNewline(content, i);
    }
  }

  lemma {:induction false} JoinFirst(first: string, rest: string, lines: seq<string>)
    requires '\n' !in first && rest != "" && Split(rest[..|rest| - 1], '\n') == lines
    ensures var joined := first + "\n" + rest; Split(joined[..|joined| - 1], '\n') == [first] + lines
  {
    var joined := first + "\n" + rest;
    assert joined[..|joined| - 1] == first + ['\n'] + rest[..|rest| - 1];
    SplitAt(first, '\n', rest[..|rest| - 1]);
  }

  lemma {:induction false} JoinSplit(lines: seq<string>)
    requires lines != [] && forall l :: l in lines ==> '\n' !in l
    ensures Unlines(lines) != "" && Split(Unlines(lines)[..|Unlines(lines)| - 1], '\n') == lines
    ensures Unlines(lines)[|Unlines(lines)| - 1] == '\n'
  {
    var joined := Unlines(lines);
    if |lines| == 1 {
      assert lines[1..] == [] && joined == lines[0] + "\n" + "";
      assert joined[..|joined| - 1] == lines[0];
      NoSeparator(lines[0], '\n');
    } else {
      assert forall l :: l in lines[1..] ==> l in lines;
      JoinSplit(lines[1..]);
      JoinFirst(lines[0], Unlines(lines[1..]), lines[1..]);
      assert [lines[0]] + lines[1..] == lines;
    }
  }

  lemma {:induction false} LastLineEnds(lines: seq<string>)
    requires lines != [] && lines[|lines| - 1] != "" && forall l :: l in lines ==> '\n' !in l
    ensures var text := Unlines(lines)[..|Unlines(lines)| - 1]; text != "" && text[|text| - 1] != '\n'
    ensures Unlines(lines) != ""
  {
    var joined := Unlines(lines);
    JoinSplit(lines);
    if |lines| == 1 {
      assert lines[1..] == [] && joined == lines[0] + "\n" + "";
      assert joined[..|joined| - 1] == lines[0];
      assert lines[0][|lines[0]| - 1] in lines[0];
    } else {
      assert forall l :: l in lines[1..] ==> l in lines;
      assert lines[1..][|lines[1..]| - 1] == lines[|lines| - 1];
      LastLineEnds(lines[1..]);
      var rest := Unlines(lines[1..]);
      assert joined == lines[0] + "\n" + rest;
      assert joined[..|joined| - 1] == lines[0] + "\n" + rest[..|rest| - 1];
    }
  }

  /** Lines written out and read again are the same lines, unless the last one is blank. */
  lemma {:induction false} LinesBack(lines: seq<string>)
    requires (forall l :: l in lines ==> '\n' !in l) && (lines != [] ==> lines[|lines| - 1] != "")
    ensures Lines(Unlines(lines)) == lines
  {
    if lines != [] {
      JoinSplit(lines);
      LastLineEnds(lines);
      var joined := Unlines(lines);
      assert WithoutNewlines(joined) == WithoutNewlines(joined[..|joined| - 1]) == joined[..|joined| - 1];
    }
  }

  lemma {:induction false} OthersAre(lines: seq<string>, tag: string)
    ensures forall l :: l in Others(lines, tag) <==> l in lines && !IsOpsLine(l, tag)
    ensures Ops(Others(lines, tag), tag) == [] && Others(Others(lines, tag), tag) == Others(lines, tag)
    ensures |Others(lines, tag)| + |Ops(lines, tag)| == |lines|
  {
    if lines != [] {
      OthersAre(lines[1..], tag);
      assert lines == [lines[0]] + lines[1..];
      var rest := Others(lines[1..], tag);
      if !IsOpsLine(lines[0], tag) {
        assert ([lines[0]] + rest)[1..] == rest;
      } else {
        assert [] + rest == rest;
      }
    }
  }

  lemma {:induction false} OpsAppend(a: seq<string>, b: seq<string>, tag: string)
    ensures Ops(a + b, tag) == Ops(a, tag) + Ops(b, tag) && Others(a + b, tag) == Others(a, tag) + Others(b, tag)
  {
    if a == [] {
      assert a + b == b;
    } else {
      assert (a + b)[1..] == a[1..] + b;
      OpsAppend(a[1..], b, tag);
      Associate(if IsOpsLine(a[0], tag) then [a[0]] else [], Ops(a[1..], tag), Ops(b, tag));
      Associate(if IsOpsLine(a[0], tag) then [] else [a[0]], Others(a[1..], tag), Others(b, tag));
    }
  }

  lemma Associate(a: seq<string>, b: seq<string>, c: seq<string>)
    ensures a + b + c == a + (b + c)
  {
  }

  lemma {:induction false} OneOpsLine(line: string, tag: string)
    requires IsOpsLine(line, tag)
    ensures Ops([line], tag) == [line] && Others([line], tag) == []
  {
    assert [line][1..] == [];
  }

  lemma {:induction false} LinesHaveNoNewline(content: string)
    ensures forall l :: l in Lines(content) ==> '\n' !in l
  {
    SplitLines(WithoutNewlines(content));
  }

  /** After an upsert the file is the lines that are not ours, in order, and then our line. */
  lemma {:induction false} UpsertLines(content: string, line: string, tag: string)
    requires IsLine(line, tag)
    ensures Lines(Upsert(content, line, tag)) == Others(Lines(content), tag) + [line]
  {
    LinesHaveNoNewline(content);
    OthersAre(Lines(content), tag);
    assert Trim("") == "";
    LinesBack(Others(Lines(content), tag) + [line]);
  }

  /** Exactly one line carries the tag, the given one; the others keep their order; a second upsert
      changes nothing and knows it. */
  lemma {:induction false} UpsertSettles(content: string, line: string, tag: string)
    requires IsLine(line, tag)
    ensures var once := Upsert(content, line, tag);
            && Ops(Lines(once), tag) == [line]
            && Others(Lines(once), tag) == Others(Lines(content), tag)
            && Upsert(once, line, tag) == once && !Changed(once, line)
  {
    var others := Others(Lines(content), tag);
    UpsertLines(content, line, tag);
    OthersAre(Lines(content), tag);
    OpsAppend(others, [line], tag);
    OneOpsLine(line, tag);
    assert others + [] == others;
    var once := Upsert(content, line, tag);
    assert Lines(once)[|others|] == line;
    assert line in Lines(once);
  }

  /** Removing after an upsert removes what removing alone would have. */
  lemma {:induction false} RemoveUndoesUpsert(content: string, line: string, tag: string)
    requires IsLine(line, tag)
    ensures Remove(Upsert(content, line, tag), tag) == Remove(content, tag)
    ensures Removed(Upsert(content, line, tag), tag) == 1
  {
    UpsertSettles(content, line, tag);
  }

  /** The blank lines at the end of the file are not kept. */
  function WithoutBlankTail(lines: seq<string>): seq<string> {
    if lines != [] && lines[|lines| - 1] == "" then WithoutBlankTail(lines[..|lines| - 1]) else lines
  }

  lemma {:induction false} ReadBack(lines: seq<string>)
    requires forall x :: x in lines ==> '\n' !in x
    ensures Lines(Unlines(lines)) == WithoutBlankTail(lines)
  {
    if lines != [] {
      var n := |lines| - 1;
      if lines[n] != "" {
        LinesBack(lines);
      } else {
        assert lines == lines[..n] + [""];
        BlankTail(lines[..n]);
        assert forall x :: x in lines[..n] ==> x in lines;
        ReadBack(lines[..n]);
      }
    }
  }

  /** A removal keeps the untagged lines, in order and up to the blank ones at the end, and reports
      how many it took. */
  lemma {:induction false} RemoveTakesOnlyOps(content: string, tag: string, l: string)
    ensures Lines(Remove(content, tag)) == WithoutBlankTail(Others(Lines(content), tag))
    ensures l in Lines(Remove(content, tag)) ==> l in Lines(content) && !IsOpsLine(l, tag)
    ensures l in Lines(content) && !IsOpsLine(l, tag) && l != "" ==> l in Lines(Remove(content, tag))
    ensures Removed(content, tag) + |Others(Lines(content), tag)| == |Lines(content)|
  {
    LinesHaveNoNewline(content);
    OthersAre(Lines(content), tag);
    ReadBack(Others(Lines(content), tag));
    KeepsText(Others(Lines(content), tag), l);
  }

  lemma {:induction false} KeepsText(lines: seq<string>, l: string)
    requires forall x :: x in lines ==> '\n' !in x
    ensures l in Lines(Unlines(lines)) ==> l in lines
    ensures l in lines && l != "" ==> l in Lines(Unlines(lines))
  {
    if lines != [] {
      var n := |lines| - 1;
      if lines[n] != "" {
        LinesBack(lines);
      } else {
        assert lines == lines[..n] + [""];
        BlankTail(lines[..n]);
        assert forall x :: x in lines[..n] ==> x in lines;
        KeepsText(lines[..n], l);
      }
    }
  }

  lemma {:induction false} UnlinesAppend(a: seq<string>, b: seq<string>)
    ensures Unlines(a + b) == Unlines(a) + Unlines(b)
  {
    if a == [] {
      assert a + b == b;
    } else {
      assert (a + b)[1..] == a[1..] + b;
      UnlinesAppend(a[1..], b);
    }
  }

  lemma {:induction false} BlankTail(lines: seq<string>)
    ensures Lines(Unlines(lines + [""])) == Lines(Unlines(lines))
  {
    UnlinesAppend(lines, [""]);
    assert [""][1..] == [] && Unlines([""]) == "" + "\n" + "" == "\n";
    var text := Unlines(lines);
    assert (text + "\n")[..|text + "\n"| - 1] == text;
  }

  /** `changed` is false when some line already is the given one. The caller then writes nothing,
      which leaves the file as the upsert would have exactly when that line is the only tagged one
      and the last of the file. */
  lemma {:induction false} UnchangedIsUpToDateIff(content: string, line: string, tag: string)
    requires IsLine(line, tag)
    ensures Lines(Upsert(content, line, tag)) == Lines(content)
            <==> Ops(Lines(content), tag) == [line] && Lines(content) != [] && Lines(content)[|Lines(content)| - 1] == line
    ensures Lines(Upsert(content, line, tag)) == Lines(content) ==> !Changed(content, line)
  {
    UpsertLines(content, line, tag);
    UpsertSettles(content, line, tag);
    LastAndOnly(Lines(content), line, tag);
  }

  lemma {:induction false} LastAndOnly(lines: seq<string>, line: string, tag: string)
    requires IsOpsLine(line, tag)
    ensures Ops(lines, tag) == [line] && lines != [] && lines[|lines| - 1] == line ==> Others(lines, tag) + [line] == lines
  {
    if Ops(lines, tag) == [line] && lines != [] && lines[|lines| - 1] == line {
      var front := lines[..|lines| - 1];
      assert lines == front + [line];
      OpsAppend(front, [line], tag);
      OneOpsLine(line, tag);
      assert |Ops(front, tag)| == 0;
      NoOps(front, tag);
    }
  }

  lemma {:induction false} NoOps(lines: seq<string>, tag: string)
    requires Ops(lines, tag) == []
    ensures Others(lines, tag) == lines
  {
    if lines != [] { NoOps(lines[1..], tag); }
  }

  /******* Is it safe to revoke? *******/

  predicate HasOtherKey(content: string, tag: string) {
    exists l :: l in Lines(content) && IsKeyLine(l) && !IsOpsLine(l, tag)
  }

  predicate Authorizes(content: string, blob: string) {
    exists l :: l in Lines(content) && IsKeyLine(l) && Includes(l, blob)
  }

  /** The data field of a public key, empty when there is none. */
  function KeyBlob(publicKey: string): string { Token(Trim(publicKey), 1) }

  datatype Reason = UserKeyRemains | OtherKeyRemains | UserKeyNotInFile | UserKeyIsBeingRemoved | NoVerifiedUserKey

  datatype Verdict = Verdict(safe: bool, reason: Reason)

  function AssessRevokeSafety(before: string, after: string, tag: string, verifiedKey: string): Verdict {
    var blob := KeyBlob(verifiedKey);
    if blob != "" && Authorizes(after, blob) then Verdict(true, UserKeyRemains)
    else if HasOtherKey(after, tag) then Verdict(true, OtherKeyRemains)
    else if blob == "" then Verdict(false, NoVerifiedUserKey)
    else if !Authorizes(before, blob) then Verdict(true, UserKeyNotInFile)
    else Verdict(false, UserKeyIsBeingRemoved)
  }

  predicate HasKey(content: string) {
    exists l :: l in Lines(content) && IsKeyLine(l)
  }

  lemma {:induction false} RemoveLeavesNoOps(content: string, tag: string, l: string)
    requires l in Lines(Remove(content, tag))
    ensures !IsOpsLine(l, tag)
  {
    RemoveTakesOnlyOps(content, tag, l);
  }

  /** The verdict on a removal is safe exactly when a key that is not the tagged one remains, or the
      key that just opened a session was never in the file; and unsafe leaves no key at all. */
  lemma {:induction false} SafeIff(content: string, tag: string, verifiedKey: string)
    ensures var after := Remove(content, tag); var blob := KeyBlob(verifiedKey);
            && (AssessRevokeSafety(content, after, tag, verifiedKey).safe
                <==> HasOtherKey(after, tag) || (blob != "" && !Authorizes(content, blob)))
            && (!AssessRevokeSafety(content, after, tag, verifiedKey).safe ==> !HasKey(after))
            && (HasOtherKey(after, tag) <==> HasKey(after)) && (HasKey(after) <==> HasOtherKey(content, tag))
  {
    var after := Remove(content, tag);
    forall l | l in Lines(after) ensures !IsOpsLine(l, tag) { RemoveLeavesNoOps(content, tag, l); }
    if l :| l in Lines(after) && IsKeyLine(l) {
      RemoveTakesOnlyOps(content, tag, l);
      assert HasOtherKey(content, tag);
    }
    if l :| l in Lines(content) && IsKeyLine(l) && !IsOpsLine(l, tag) {
      RemoveTakesOnlyOps(content, tag, l);
      assert HasKey(after);
    }
  }
}
