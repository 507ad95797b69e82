/** Trimming, splitting and numbers in text. */
module Strings {

  predicate IsSpace(c: char) { c in " \t\r\n" }

  function Trim(s: string): string
    decreases |s|
  {
    if s != "" && IsSpace(s[0]) then Trim(s[1..])
    else if s != "" && IsSpace(s[|s| - 1]) then Trim(s[..|s| - 1])
    else s
  }

  predicate IsDigit(c: char) { '0' <= c <= '9' }

  predicate IsNumber(s: string) {
    s != "" && forall c :: c in s ==> IsDigit(c)
  }

  function Value(s: string): nat
    requires forall c :: c in s ==> IsDigit(c)
  {
    if s == "" then 0
    else
      assert IsDigit(s[|s| - 1]);
      Value(s[..|s| - 1]) * 10 + (s[|s| - 1] as int - '0' as int)
  }

  /** A port as the program prints it. */
  function Digits(n: nat): string {
    if n < 10 then ['0' + n as char] else Digits(n / 10) + ['0' + (n % 10) as char]
  }

  function Split(s: string, separator: char): (parts: seq<string>)
    ensures |parts| > 0
  {
    if s == "" then [""]
    else
      var rest := Split(s[1..], separator);
      if s[0] == separator then [""] + rest else [[s[0]] + rest[0]] + rest[1..]
  }

  lemma {:induction false} DigitsRead(n: nat)
    ensures IsNumber(Digits(n)) && Value(Digits(n)) == n
  {
    if n >= 10 {
      DigitsRead(n / 10);
      var d := Digits(n);
      assert d[..|d| - 1] == Digits(n / 10);
    } else {
      assert Digits(n)[..0] == "";
    }
  }

  lemma {:induction false} NoSeparator(s: string, separator: char)
    requires separator !in s
    ensures Split(s, separator) == [s]
  {
    if s != "" {
      NoSeparator(s[1..], separator);
      assert [s[0]] + s[1..] == s;
    }
  }

  function Lower(s: string): string {
    seq(|s|, i requires 0 <= i < |s| => if 'A' <= s[i] <= 'Z' then s[i] - 'A' + 'a' else s[i])
  }

  lemma {:induction false} SplitAt(a: string, separator: char, b: string)
    requires separator !in a
    ensures Split(a + [separator] + b, separator) == [a] + Split(b, separator)
  {
    var s := a + [separator] + b;
    if a == "" {
      assert s[1..] == b;
    } else {
      assert s[1..] == a[1..] + [separator] + b;
      SplitAt(a[1..], separator, b);
      assert [a[0]] + a[1..] == a;
    }
  }

  lemma {:induction false} SplitKeeps(s: string, separator: char, c: char)
    requires c in s && c != separator
    ensures exists part :: part in Split(s, separator) && c in part
  {
    if s[0] == separator {
      assert s == [s[0]] + s[1..];
      SplitKeeps(s[1..], separator, c);
      var part :| part in Split(s[1..], separator) && c in part;
      assert part in Split(s, separator);
    } else if s[0] == c {
      assert Split(s, separator)[0] == [s[0]] + Split(s[1..], separator)[0];
      assert Split(s, separator)[0] in Split(s, separator) && c in Split(s, separator)[0];
    } else {
      assert s == [s[0]] + s[1..];
      SplitKeeps(s[1..], separator, c);
      var part :| part in Split(s[1..], separator) && c in part;
      var rest := Split(s[1..], separator);
      var i :| 0 <= i < |rest| && rest[i] == part;
      if i == 0 {
        assert Split(s, separator)[0] == [s[0]] + part;
        assert Split(s, separator)[0] in Split(s, separator);
      } else {
        assert Split(s, separator)[i] == rest[i];
        assert Split(s, separator)[i] in Split(s, separator);
      }
    }
  }

  lemma {:induction false} TrimTrailing(s: string, c: char)
    requires IsSpace(c)
    ensures Trim(s + [c]) == Trim(s)
    decreases |s|
  {
    var t := s + [c];
    if s == "" {
      assert t[1..] == "";
    } else if IsSpace(s[0]) {
      assert t[1..] == s[1..] + [c];
      TrimTrailing(s[1..], c);
    } else {
      assert t[..|t| - 1] == s;
    }
  }

  /** One more character in the last part. */
  function Extended(parts: seq<string>, c: char): (r: seq<string>)
    requires parts != []
    ensures |r| == |parts|
  {
    parts[|parts| - 1 := parts[|parts| - 1] + [c]]
  }

  lemma ExtendedCons(first: string, rest: seq<string>, c: char)
    requires rest != []
    ensures Extended([first] + rest, c) == [first] + Extended(rest, c)
  {
  }

  lemma ExtendedHead(x: char, rest: seq<string>, c: char)
    requires rest != []
    ensures var more := Extended(rest, c);
            Extended([[x] + rest[0]] + rest[1..], c) == [[x] + more[0]] + more[1..]
  {
    assert [x] + (rest[0] + [c]) == ([x] + rest[0]) + [c];
  }

  lemma {:induction false} SplitSnoc(s: string, separator: char, c: char)
    requires c != separator
    ensures Split(s + [c], separator) == Extended(Split(s, separator), c)
  {
    if s == "" {
      assert "" + [c] == [c];
      NoSeparator([c], separator);
    } else {
      assert (s + [c])[1..] == s[1..] + [c];
      SplitSnoc(s[1..], separator, c);
      if s[0] == separator {
        ExtendedCons("", Split(s[1..], separator), c);
      } else {
        ExtendedHead(s[0], Split(s[1..], separator), c);
      }
    }
  }

  lemma SplitElement(s: string, separator: char, i: nat)
    requires s != "" && s[0] != separator && i < |Split(s, separator)|
    ensures |Split(s[1..], separator)| == |Split(s, separator)|
    ensures Split(s, separator)[i] == if i == 0 then [s[0]] + Split(s[1..], separator)[0] else Split(s[1..], separator)[i]
  {
  }

  lemma TrimLeading(c: char, s: string)
    requires IsSpace(c)
    ensures Trim([c] + s) == Trim(s)
  {
    assert ([c] + s)[1..] == s;
  }

  lemma SplitLast(s: string, separator: char, c: char, i: nat)
    requires c != separator && i < |Split(s + [c], separator)|
    ensures |Split(s + [c], separator)| == |Split(s, separator)|
    ensures Split(s + [c], separator)[i] == if i == |Split(s, separator)| - 1 then Split(s, separator)[i] + [c] else Split(s, separator)[i]
  {
    SplitSnoc(s, separator, c);
  }

  /** Trimming a spec first trims no more than trimming its parts. */
  lemma {:induction false} TrimmedParts(s: string, separator: char, i: nat)
    requires !IsSpace(separator) && i < |Split(s, separator)|
    ensures i < |Split(Trim(s), separator)| && Trim(Split(Trim(s), separator)[i]) == Trim(Split(s, separator)[i])
    decreases |s|
  {
    if s != "" && IsSpace(s[0]) {
      SplitElement(s, separator, i);
      TrimmedParts(s[1..], separator, i);
      TrimLeading(s[0], Split(s[1..], separator)[0]);
    } else if s != "" && IsSpace(s[|s| - 1]) {
      var shorter, c := s[..|s| - 1], s[|s| - 1];
      assert s == shorter + [c];
      SplitLast(shorter, separator, c, i);
      TrimmedParts(shorter, separator, i);
      TrimTrailing(Split(shorter, separator)[i], c);
    }
  }
}
