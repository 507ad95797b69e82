/** The command line sent to a remote shell, and how a POSIX shell splits it back into words. */
module PosixShell {
  import opened Optional

  /******* Quoting *******/

  /** Each single quote closes the quoted text, stands escaped on its own, and opens it again. */
  function Escape(v: string): string {
    if v == "" then ""
    else (if v[0] == '\'' then "'\\''" else [v[0]]) + Escape(v[1..])
  }

  function Quote(v: string): string {
    "'" + Escape(v) + "'"
  }

  /******* The command *******/

  datatype Spec = Spec(container: string, interactive: bool, shell: string, command: seq<string>, sudo: bool)

  const AUTODETECT_SHELL := "command -v bash >/dev/null 2>&1 && exec bash || exec sh"

  /** A word of the command line: written as it is, or quoted. */
  datatype Part = Bare(word: string) | Quoted(word: string) {
    function Text(): string { if Bare? then word else Quote(word) }
  }

  function AllQuoted(words: seq<string>): (parts: seq<Part>)
    ensures |parts| == |words| && forall i :: 0 <= i < |words| ==> parts[i] == Quoted(words[i])
  {
    seq(|words|, i requires 0 <= i < |words| => Quoted(words[i]))
  }

  function ExecTail(spec: Spec): seq<Part> {
    if spec.command != [] then AllQuoted(spec.command)
    else if spec.shell != "" then [Quoted(spec.shell)]
    else [Bare("sh"), Bare("-c"), Quoted(AUTODETECT_SHELL)]
  }

  function Parts(spec: Spec): seq<Part> {
    (if spec.sudo then [Bare("sudo")] + (if spec.interactive then [] else [Bare("-n")]) else [])
    + [Bare("podman"), Bare("exec"), Bare(if spec.interactive then "-it" else "-i"), Quoted(spec.container)]
    + ExecTail(spec)
  }

  /** The parts, with a space between them. */
  function Join(parts: seq<Part>): string {
    if parts == [] then ""
    else if |parts| == 1 then parts[0].Text()
    else parts[0].Text() + " " + Join(parts[1..])
  }

  function BuildExecCommand(spec: Spec): string {
    Join(Parts(spec))
  }

  function Words(parts: seq<Part>): (words: seq<string>)
    ensures |words| == |parts| && forall i :: 0 <= i < |parts| ==> words[i] == parts[i].word
  {
    seq(|parts|, i requires 0 <= i < |parts| => parts[i].word)
  }

  /******* The shell *******/

  /** Characters that mean something to the shell when they stand unquoted. */
  predicate Special(c: char) {
    || c == '|' || c == '&' || c == ';' || c == '<' || c == '>' || c == '(' || c == ')' || c == '$' || c == '`' || c == '"'
    || c == '*' || c == '?' || c == '[' || c == ']' || c == '#' || c == '~' || c == '=' || c == '%' || c == '!'
    || c == '{' || c == '}' || c == '\n' || c == '\r'
  }

  predicate Blank(c: char) { c == ' ' || c == '\t' }

  /** Between words, inside one, inside single quotes, or after a backslash. */
  datatype Lexer = Between | Word(text: string) | InQuotes(text: string) | Escaped(text: string, inWord: bool)

  function Step(l: Lexer, c: char): Option<Lexer> {
    match l
    case InQuotes(w) => Some(if c == '\'' then Word(w) else InQuotes(w + [c]))
    case Escaped(w, inWord) => Some(if c == '\n' then (if inWord then Word(w) else Between) else Word(w + [c]))
    case Between =>
      if Blank(c) then Some(Between)
      else if c == '\'' then Some(InQuotes(""))
      else if c == '\\' then Some(Escaped("", false))
      else if Special(c) then None else Some(Word([c]))
    case Word(w) =>
      if Blank(c) then Some(Between)
      else if c == '\'' then Some(InQuotes(w))
      else if c == '\\' then Some(Escaped(w, true))
      else if Special(c) then None else Some(Word(w + [c]))
  }

  /** The words of a simple command: quoting as in sections 2.2.1 and 2.2.2, tokens as in 2.3, of
      the POSIX.1-2017 Shell Command Language. No answer when anything would be expanded, when the
      command would end or when a quote is left open. */
  function Lex(l: Lexer, s: string): Option<seq<string>>
    decreases |s|
  {
    if s == "" then
      match l
      case Between => Some([])
      case Word(w) => Some([w])
      case _ => None
    else
      match Step(l, s[0])
      case None => None
      case Some(next) =>
        match Lex(next, s[1..])
        case None => None
        case Some(words) => if l.Word? && next.Between? then Some([l.text] + words) else Some(words)
  }

  /******* Round trip *******/

  lemma {:induction false} OneStep(l: Lexer, c: char, s: string)
    requires Step(l, c).Some? && !(l.Word? && Step(l, c).value.Between?)
    ensures Lex(l, [c] + s) == Lex(Step(l, c).value, s)
  {
    assert ([c] + s)[1..] == s;
  }

  lemma {:induction false} EscapedQuoteRead(w: string, s: string)
    ensures Lex(InQuotes(w), "'\\''" + s) == Lex(InQuotes(w + "'"), s)
  {
    var t := "'\\''" + s;
    assert t == ['\''] + (['\\'] + (['\''] + (['\''] + s)));
    OneStep(InQuotes(w), '\'', ['\\'] + (['\''] + (['\''] + s)));
    OneStep(Word(w), '\\', ['\''] + (['\''] + s));
    OneStep(Escaped(w, true), '\'', ['\''] + s);
    assert w + ['\''] == w + "'";
    OneStep(Word(w + "'"), '\'', s);
  }

  /** Whatever the text, the shell reads its quoted form back to it. */
  lemma {:induction false} QuotedRead(w: string, v: string, s: string)
    ensures Lex(InQuotes(w), Escape(v) + "'" + s) == Lex(Word(w + v), s)
    decreases |v|
  {
    if v == "" {
      assert Escape(v) + "'" + s == ['\''] + s && w + v == w;
      OneStep(InQuotes(w), '\'', s);
    } else {
      var tail := Escape(v[1..]) + "'" + s;
      assert v == [v[0]] + v[1..] && (w + [v[0]]) + v[1..] == w + v;
      if v[0] == '\'' {
        assert Escape(v) + "'" + s == "'\\''" + tail;
        EscapedQuoteRead(w, tail);
        assert w + "'" == w + [v[0]];
      } else {
        assert Escape(v) + "'" + s == [v[0]] + tail;
        OneStep(InQuotes(w), v[0], tail);
      }
      QuotedRead(w + [v[0]], v[1..], s);
    }
  }

  predicate Plain(c: char) { !Special(c) && !Blank(c) && c != '\'' && c != '\\' }

  predicate PlainWord(w: string) { w != "" && forall c :: c in w ==> Plain(c) }

  lemma {:induction false} PlainRead(w: string, v: string, s: string)
    requires forall c :: c in v ==> Plain(c)
    ensures Lex(Word(w), v + s) == Lex(Word(w + v), s)
    decreases |v|
  {
    if v == "" {
      assert v + s == s && w + v == w;
    } else {
      assert v[0] in v && forall c :: c in v[1..] ==> c in v;
      assert v + s == [v[0]] + (v[1..] + s) && (w + [v[0]]) + v[1..] == w + v;
      OneStep(Word(w), v[0], v[1..] + s);
      PlainRead(w + [v[0]], v[1..], s);
    }
  }

  predicate Readable(p: Part) { p.Bare? ==> PlainWord(p.word) }

  lemma {:induction false} PartRead(p: Part, s: string)
    requires Readable(p)
    ensures Lex(Between, p.Text() + s) == Lex(Word(p.word), s)
  {
    if p.Bare? {
      assert p.word[0] in p.word && forall c :: c in p.word[1..] ==> c in p.word;
      assert p.word + s == [p.word[0]] + (p.word[1..] + s) && [p.word[0]] + p.word[1..] == p.word;
      OneStep(Between, p.word[0], p.word[1..] + s);
      PlainRead([p.word[0]], p.word[1..], s);
    } else {
      assert p.Text() + s == ['\''] + (Escape(p.word) + "'" + s);
      OneStep(Between, '\'', Escape(p.word) + "'" + s);
      QuotedRead("", p.word, s);
      assert "" + p.word == p.word;
    }
  }

  lemma {:induction false} EndWord(w: string, s: string)
    ensures Lex(Word(w), " " + s) == match Lex(Between, s) case None => None case Some(words) => Some([w] + words)
  {
    assert (" " + s)[1..] == s;
  }

  lemma {:induction false} LastPartRead(p: Part)
    requires Readable(p)
    ensures Lex(Between, p.Text()) == Some([p.word])
  {
    PartRead(p, "");
    assert p.Text() + "" == p.Text();
  }

  lemma {:induction false} FirstPartRead(p: Part, rest: string, words: seq<string>)
    requires Readable(p) && Lex(Between, rest) == Some(words)
    ensures Lex(Between, p.Text() + " " + rest) == Some([p.word] + words)
  {
    PartRead(p, " " + rest);
    assert p.Text() + (" " + rest) == p.Text() + " " + rest;
    EndWord(p.word, rest);
  }

  /** Any list of parts reads back as its words, whatever quotes, blanks, newlines or nothing at all
      the quoted ones contain. */
  lemma {:induction false} JoinedRead(parts: seq<Part>)
    requires forall p :: p in parts ==> Readable(p)
    ensures Lex(Between, Join(parts)) == Some(Words(parts))
  {
    if |parts| == 1 {
      LastPartRead(parts[0]);
      assert Words(parts) == [parts[0].word];
    } else if |parts| > 1 {
      assert forall p :: p in parts[1..] ==> p in parts;
      JoinedRead(parts[1..]);
      FirstPartRead(parts[0], Join(parts[1..]), Words(parts[1..]));
      assert [parts[0].word] + Words(parts[1..]) == Words(parts);
    }
  }

  /** What the command is meant to run. */
  function Intended(spec: Spec): seq<string> {
    (if spec.sudo then ["sudo"] + (if spec.interactive then [] else ["-n"]) else [])
    + ["podman", "exec", if spec.interactive then "-it" else "-i", spec.container]
    + (if spec.command != [] then spec.command else if spec.shell != "" then [spec.shell] else ["sh", "-c", AUTODETECT_SHELL])
  }

  lemma {:induction false} WordsAppend(a: seq<Part>, b: seq<Part>)
    ensures Words(a + b) == Words(a) + Words(b)
  {
  }

  predicate AllReadable(parts: seq<Part>) { forall p :: p in parts ==> Readable(p) }

  lemma {:induction false} ReadableAppend(a: seq<Part>, b: seq<Part>)
    requires AllReadable(a) && AllReadable(b)
    ensures AllReadable(a + b)
  {
  }

  predicate Letter(c: char) { 'a' <= c <= 'z' || c == '-' }

  lemma {:induction false} LettersPlain(w: string)
    requires w != "" && forall i :: 0 <= i < |w| ==> Letter(w[i])
    ensures PlainWord(w)
  {
    forall c | c in w ensures Plain(c) {
      var i :| 0 <= i < |w| && w[i] == c;
    }
  }

  lemma {:induction false} FixedWordsPlain()
    ensures PlainWord("sudo") && PlainWord("-n") && PlainWord("podman") && PlainWord("exec")
    ensures PlainWord("-it") && PlainWord("-i") && PlainWord("sh") && PlainWord("-c")
  {
    LettersPlain("sudo");
    LettersPlain("-n");
    LettersPlain("podman");
    LettersPlain("exec");
    LettersPlain("-it");
    LettersPlain("-i");
    LettersPlain("sh");
    LettersPlain("-c");
  }

  lemma {:induction false} OneWord(p: Part)
    ensures Words([p]) == [p.word] && (Readable(p) ==> AllReadable([p]))
  {
  }

  lemma {:induction false} MoreWords(parts: seq<Part>, p: Part)
    ensures Words(parts + [p]) == Words(parts) + [p.word]
    ensures AllReadable(parts) && Readable(p) ==> AllReadable(parts + [p])
  {
  }

  lemma {:induction false} SudoParts(spec: Spec)
    ensures var parts := if spec.sudo then [Bare("sudo")] + (if spec.interactive then [] else [Bare("-n")]) else [];
            && Words(parts) == (if spec.sudo then ["sudo"] + (if spec.interactive then [] else ["-n"]) else [])
            && AllReadable(parts)
  {
    FixedWordsPlain();
    OneWord(Bare("sudo"));
    MoreWords([Bare("sudo")], Bare("-n"));
  }

  lemma {:induction false} ExecParts(flag: string, container: string)
    requires PlainWord(flag)
    ensures var parts := [Bare("podman"), Bare("exec"), Bare(flag), Quoted(container)];
            Words(parts) == ["podman", "exec", flag, container] && AllReadable(parts)
  {
    FixedWordsPlain();
    OneWord(Bare("podman"));
    MoreWords([Bare("podman")], Bare("exec"));
    MoreWords([Bare("podman"), Bare("exec")], Bare(flag));
    MoreWords([Bare("podman"), Bare("exec"), Bare(flag)], Quoted(container));
    assert [Bare("podman")] + [Bare("exec")] + [Bare(flag)] + [Quoted(container)] == [Bare("podman"), Bare("exec"), Bare(flag), Quoted(container)];
  }

  lemma {:induction false} ShellParts(script: string)
    ensures var parts := [Bare("sh"), Bare("-c"), Quoted(script)]; Words(parts) == ["sh", "-c", script] && AllReadable(parts)
  {
    FixedWordsPlain();
    OneWord(Bare("sh"));
    MoreWords([Bare("sh")], Bare("-c"));
    MoreWords([Bare("sh"), Bare("-c")], Quoted(script));
    assert [Bare("sh")] + [Bare("-c")] + [Quoted(script)] == [Bare("sh"), Bare("-c"), Quoted(script)];
  }

  lemma {:induction false} TailParts(spec: Spec)
    ensures Words(ExecTail(spec)) ==
      if spec.command != [] then spec.command else if spec.shell != "" then [spec.shell] else ["sh", "-c", AUTODETECT_SHELL]
    ensures AllReadable(ExecTail(spec))
  {
    OneWord(Quoted(spec.shell));
    ShellParts(AUTODETECT_SHELL);
  }

  lemma {:induction false} PartsAreIntended(spec: Spec)
    ensures Words(Parts(spec)) == Intended(spec) && AllReadable(Parts(spec))
  {
    var sudo := if spec.sudo then [Bare("sudo")] + (if spec.interactive then [] else [Bare("-n")]) else [];
    var exec := [Bare("podman"), Bare("exec"), Bare(if spec.interactive then "-it" else "-i"), Quoted(spec.container)];
    SudoParts(spec);
    FixedWordsPlain();
    ExecParts(if spec.interactive then "-it" else "-i", spec.container);
    TailParts(spec);
    WordsAppend(sudo, exec);
    WordsAppend(sudo + exec, ExecTail(spec));
    ReadableAppend(sudo, exec);
    ReadableAppend(sudo + exec, ExecTail(spec));
  }

  /** The shell on the other side runs exactly the intended words, for every container name, shell
      and argument vector. */
  lemma {:induction false} CommandReadsBack(spec: Spec)
    ensures Lex(Between, BuildExecCommand(spec)) == Some(Intended(spec))
  {
    PartsAreIntended(spec);
    JoinedRead(Parts(spec));
  }

  /** Two argument vectors never make the same command line. */
  lemma {:induction false} CommandsDiffer(a: Spec, b: Spec)
    requires BuildExecCommand(a) == BuildExecCommand(b)
    ensures Intended(a) == Intended(b)
  {
    CommandReadsBack(a);
    CommandReadsBack(b);
  }
}
