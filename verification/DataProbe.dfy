/** What a host already holds of an app's data, read from text that may stop anywhere. */
module DataProbe {
  import opened Optional
  import opened Strings

  datatype Found = VolumeFound(name: string) | SecretFound(name: string)

  datatype AppData = AppData(volumes: seq<string>, secrets: seq<string>)

  const START := "@@existing"
  const END := "@@done"

  /******* What the script prints *******/

  function LineOf(f: Found): string {
    match f
    case VolumeFound(name) => "volume " + name
    case SecretFound(name) => "secret " + name
  }

  function Body(found: seq<Found>): string {
    if found == [] then "" else LineOf(found[0]) + "\n" + Body(found[1..])
  }

  function Output(found: seq<Found>): string {
    START + "\n" + Body(found) + END + "\n"
  }

  /******* What the program reads *******/

  predicate At(s: string, part: string, i: nat) {
    i + |part| <= |s| && s[i..i + |part|] == part
  }

  /** The first position from `from` on where `part` stands. */
  function IndexOf(s: string, part: string, from: nat): (r: Option<nat>)
    ensures r.Some? ==> from <= r.value && At(s, part, r.value) && forall i: nat :: from <= i < r.value ==> !At(s, part, i)
    ensures r.None? ==> forall i: nat :: from <= i ==> !At(s, part, i)
    decreases |s| - from
  {
    if from + |part| > |s| then None else if At(s, part, from) then Some(from) else IndexOf(s, part, from + 1)
  }

  function Slice(s: string, from: nat, to: nat): string {
    if from <= to <= |s| then s[from..to] else ""
  }

  function Named(lines: seq<string>, prefix: string): seq<string> {
    if lines == [] then []
    else
      var l := Trim(lines[0]);
      (if prefix <= l then [Trim(l[|prefix|..])] else []) + Named(lines[1..], prefix)
  }

  /** Nothing is known unless an end marker follows the start marker. */
  function Parse(stdout: string): Option<AppData> {
    match IndexOf(stdout, START, 0)
    case None => None
    case Some(start) =>
      match IndexOf(stdout, END, start + 1)
      case None => None
      case Some(end) =>
        var line := IndexOf(stdout, "\n", start);
        var lines := Split(Slice(stdout, if line.Some? then line.value + 1 else 0, end), '\n');
        Some(AppData(Named(lines, "volume "), Named(lines, "secret ")))
  }

  /******* What it makes of the output *******/

  /** A name podman gives: one word, no marker in it. */
  predicate Clean(name: string) {
    && name != "" && !IsSpace(name[0]) && !IsSpace(name[|name| - 1])
    && '@' !in name && '\n' !in name
  }

  predicate AllClean(found: seq<Found>) {
    forall f :: f in found ==> Clean(f.name)
  }

  function VolumesOf(found: seq<Found>): seq<string> {
    if found == [] then [] else (if found[0].VolumeFound? then [found[0].name] else []) + VolumesOf(found[1..])
  }

  function SecretsOf(found: seq<Found>): seq<string> {
    if found == [] then [] else (if found[0].SecretFound? then [found[0].name] else []) + SecretsOf(found[1..])
  }

  lemma LineHasNoMarker(f: Found)
    requires Clean(f.name)
    ensures '@' !in LineOf(f)
  {
    var word := if f.VolumeFound? then "volume " else "secret ";
    assert LineOf(f) == word + f.name && '@' !in word;
  }

  lemma Absent(a: string, b: string, c: string, x: char)
    requires x !in a && x !in b && x !in c
    ensures x !in a + b + c
  {
  }

  lemma {:induction false} BodyHasNoMarker(found: seq<Found>)
    requires AllClean(found)
    ensures '@' !in Body(found)
  {
    if found != [] {
      assert found[0] in found && forall f :: f in found[1..] ==> f in found;
      BodyHasNoMarker(found[1..]);
      LineHasNoMarker(found[0]);
      Absent(LineOf(found[0]), "\n", Body(found[1..]), '@');
    }
  }

  lemma {:induction false} CleanTrim(name: string)
    requires Clean(name)
    ensures Trim(name) == name
  {
  }

  lemma {:induction false} LineRead(f: Found)
    requires Clean(f.name)
    ensures Trim(LineOf(f)) == LineOf(f) && '\n' !in LineOf(f)
    ensures "volume " <= LineOf(f) <==> f.VolumeFound?
    ensures "secret " <= LineOf(f) <==> f.SecretFound?
    ensures LineOf(f)[7..] == f.name
  {
    var l := LineOf(f);
    assert l[0] == 'v' || l[0] == 's';
    assert l[|l| - 1] == f.name[|f.name| - 1];
  }

  lemma {:induction false} LinesRead(found: seq<Found>)
    requires AllClean(found)
    ensures var lines := Split(Body(found), '\n');
            Named(lines, "volume ") == VolumesOf(found) && Named(lines, "secret ") == SecretsOf(found)
  {
    if found == [] {
      assert Split("", '\n') == [""] && Trim("") == "";
      assert [""][1..] == [] && !("volume " <= "") && !("secret " <= "");
    } else {
      assert found[0] in found && forall f :: f in found[1..] ==> f in found;
      LinesRead(found[1..]);
      LineRead(found[0]);
      CleanTrim(found[0].name);
      var line, rest := LineOf(found[0]), Body(found[1..]);
      assert Body(found) == line + ['\n'] + rest;
      SplitAt(line, '\n', rest);
      assert ([line] + Split(rest, '\n'))[1..] == Split(rest, '\n');
    }
  }

  /** Where the end marker stands in the whole output. */
  function Last(found: seq<Found>): nat { |START| + 1 + |Body(found)| }

  lemma {:induction false} OutputLetters(found: seq<Found>)
    ensures var whole, last := Output(found), Last(found);
            && |whole| == last + |END| + 1
            && whole[..|START|] == START && whole[|START|] == '\n'
            && whole[|START| + 1..last] == Body(found) && whole[last..last + |END|] == END && whole[last + |END|] == '\n'
  {
  }

  lemma {:induction false} AtSigns(found: seq<Found>, i: nat)
    requires AllClean(found) && i < |Output(found)| && Output(found)[i] == '@'
    ensures i <= 1 || i == Last(found) || i == Last(found) + 1
  {
    var whole, last := Output(found), Last(found);
    OutputLetters(found);
    BodyHasNoMarker(found);
    if i < |START| {
      assert whole[i] == whole[..|START|][i] == START[i];
    } else if last <= i < last + |END| {
      assert whole[i] == whole[last..last + |END|][i - last] == END[i - last];
    }
  }

  /** Two markers in a row only stand where one of the two words begins. */
  lemma {:induction false} MarkerStarts(found: seq<Found>, marker: string, n: nat, i: nat)
    requires AllClean(found) && n <= |Output(found)| && (marker == START || marker == END)
    requires At(Output(found)[..n], marker, i)
    ensures i == if marker == START then 0 else Last(found)
  {
    var whole, text := Output(found), Output(found)[..n];
    MarkerLetters(text, marker, i);
    assert text[i] == whole[i] && text[i + 1] == whole[i + 1] && text[i + 2] == whole[i + 2];
    AtSigns(found, i);
    AtSigns(found, i + 1);
    OutputLetters(found);
    assert whole[2] == whole[..|START|][2] == 'e';
    assert whole[Last(found) + 2] == whole[Last(found)..Last(found) + |END|][2] == 'd';
  }

  lemma SliceOfPrefix(whole: string, n: nat, lo: nat, hi: nat)
    requires lo <= hi <= n <= |whole|
    ensures whole[..n][lo..hi] == whole[lo..hi]
  {
    forall k | 0 <= k < hi - lo ensures whole[..n][lo..hi][k] == whole[lo..hi][k] {
      assert whole[..n][lo..hi][k] == whole[..n][lo + k] == whole[lo + k];
    }
  }

  lemma {:induction false} EndStands(found: seq<Found>, n: nat)
    requires Last(found) + |END| <= n <= |Output(found)|
    ensures At(Output(found)[..n], END, Last(found)) && At(Output(found)[..n], START, 0)
  {
    var whole, last := Output(found), Last(found);
    OutputLetters(found);
    SliceOfPrefix(whole, n, last, last + |END|);
    SliceOfPrefix(whole, n, 0, |START|);
  }

  lemma {:induction false} MarkerLetters(text: string, marker: string, i: nat)
    requires At(text, marker, i) && |marker| >= 3
    ensures text[i] == marker[0] && text[i + 1] == marker[1] && text[i + 2] == marker[2]
  {
    var part := text[i..i + |marker|];
    assert text[i] == part[0] && text[i + 1] == part[1] && text[i + 2] == part[2];
  }

  /** However much of the output arrived, the answer is either exactly what the host holds, or that
      nothing is known: exactly when the end marker is missing. A truncated run never reads as a
      host that holds nothing. */
  lemma {:induction false} TruncatedIsUnknown(found: seq<Found>, n: nat)
    requires AllClean(found) && n <= |Output(found)|
    ensures Parse(Output(found)[..n]) ==
      if n + 1 < |Output(found)| then None else Some(AppData(VolumesOf(found), SecretsOf(found)))
  {
    OutputLetters(found);
    if n + 1 < |Output(found)| { CutShort(found, n); } else { AllThere(found, n); }
  }

  lemma {:induction false} CutShort(found: seq<Found>, n: nat)
    requires AllClean(found) && n + 1 < |Output(found)|
    ensures Parse(Output(found)[..n]).None?
  {
    var text := Output(found)[..n];
    OutputLetters(found);
    forall i: nat ensures !At(text, END, i) {
      if At(text, END, i) {
        MarkerStarts(found, END, n, i);
        assert false;
      }
    }
  }

  lemma {:induction false} MarkersFound(found: seq<Found>, n: nat)
    requires AllClean(found) && n <= |Output(found)| <= n + 1
    ensures IndexOf(Output(found)[..n], START, 0) == Some(0) && IndexOf(Output(found)[..n], END, 1) == Some(Last(found))
  {
    var text := Output(found)[..n];
    OutputLetters(found);
    EndStands(found, n);
    assert IndexOf(text, START, 0) == Some(0);
    var end := IndexOf(text, END, 1);
    assert end.Some?;
    MarkerStarts(found, END, n, end.value);
  }

  lemma Assembled(text: string, last: nat, body: string)
    requires IndexOf(text, START, 0) == Some(0) && IndexOf(text, END, 1) == Some(last)
    requires IndexOf(text, "\n", 0) == Some(|START|)
    requires |START| + 1 <= last <= |text| && text[|START| + 1..last] == body
    ensures Parse(text) == Some(AppData(Named(Split(body, '\n'), "volume "), Named(Split(body, '\n'), "secret ")))
  {
  }

  lemma {:induction false} AllThere(found: seq<Found>, n: nat)
    requires AllClean(found) && n <= |Output(found)| <= n + 1
    ensures Parse(Output(found)[..n]) == Some(AppData(VolumesOf(found), SecretsOf(found)))
  {
    OutputLetters(found);
    MarkersFound(found, n);
    NewlineAfterStart(found, n);
    SliceOfPrefix(Output(found), n, |START| + 1, Last(found));
    Assembled(Output(found)[..n], Last(found), Body(found));
    LinesRead(found);
  }

  lemma {:induction false} NewlineAfterStart(found: seq<Found>, n: nat)
    requires n <= |Output(found)| && n > |START|
    ensures IndexOf(Output(found)[..n], "\n", 0) == Some(|START|)
  {
    var text := Output(found)[..n];
    OutputLetters(found);
    assert text[|START|..|START| + 1] == "\n";
    assert At(text, "\n", |START|);
    forall i: nat | i < |START| ensures text[i] != '\n' { assert text[i] == text[..|START|][i] == START[i]; }
    assert forall i: nat :: i < |START| ==> text[i..i + 1] == [text[i]];
  }
}
