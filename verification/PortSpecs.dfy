/** Port specs as people write them: a port, a range, or a comma list of both. */
module PortSpecs {
  import opened Optional
  import opened Strings

  /******* Specs *******/

  datatype Range = Range(lo: nat, hi: nat)

  predicate Within(port: nat, ranges: seq<Range>) {
    exists r :: r in ranges && r.lo <= port <= r.hi
  }

  /** A port, or two ports with a dash between them. */
  function ParseElement(e: string): Option<Range> {
    if IsNumber(e) then Some(Range(Value(e), Value(e)))
    else
      var ends := Split(e, '-');
      if |ends| == 2 && IsNumber(ends[0]) && IsNumber(ends[1]) then Some(Range(Value(ends[0]), Value(ends[1]))) else None
  }

  function ParseElements(es: seq<string>): Option<seq<Range>> {
    if es == [] then Some([])
    else
      match (ParseElements(es[..|es| - 1]), ParseElement(es[|es| - 1]))
      case (Some(rs), Some(r)) => Some(rs + [r])
      case _ => None
  }

  const ALL_PORTS := [Range(0, 65535)]

  /** No port means every port; a spec that is not well formed has no meaning at all. */
  function ParsePorts(spec: string): Option<seq<Range>> {
    var t := Trim(spec);
    if t == "" then Some(ALL_PORTS) else ParseElements(Split(t, ','))
  }

  lemma {:induction false} ElementsIs(es: seq<string>, i: nat)
    requires i < |es| && ParseElements(es).Some?
    ensures |ParseElements(es).value| == |es| && ParseElement(es[i]) == Some(ParseElements(es).value[i])
  {
    if i < |es| - 1 {
      ElementsIs(es[..|es| - 1], i);
    } else if |es| > 1 {
      ElementsIs(es[..|es| - 1], 0);
    }
  }

  /******* Does a rule open a port? *******/

  /** Exactly the port, a member of a list of plain ports, or inside a single range. */
  predicate CoversPort(spec: string, port: nat) {
    if spec == "" then false
    else
      var p, s := Trim(spec), Digits(port);
      if p == s then true
      else if |Split(p, ',')| > 1 && (forall e :: e in Split(p, ',') ==> IsNumber(e)) then s in Split(p, ',')
      else
        var ends := Split(p, '-');
        |ends| == 2 && IsNumber(ends[0]) && IsNumber(ends[1]) && Value(ends[0]) <= port <= Value(ends[1])
  }

  lemma {:induction false} MemberCovers(es: seq<string>, ranges: seq<Range>, e: string, port: nat)
    requires ParseElements(es) == Some(ranges) && e in es
    requires ParseElement(e).Some? && ParseElement(e).value.lo <= port <= ParseElement(e).value.hi
    ensures Within(port, ranges)
  {
    var i :| 0 <= i < |es| && es[i] == e;
    ElementsIs(es, i);
    assert ranges[i] in ranges;
  }

  lemma {:induction false} DigitsNumber(port: nat)
    ensures ParseElement(Digits(port)) == Some(Range(port, port)) && Digits(port) != "" && ',' !in Digits(port)
  {
    DigitsRead(port);
    assert forall c :: c in Digits(port) ==> IsDigit(c);
  }

  /** A port is never claimed as covered by a spec that does not open it. */
  lemma {:induction false} CoversIsSound(spec: string, port: nat)
    requires CoversPort(spec, port) && ParsePorts(spec).Some?
    ensures Within(port, ParsePorts(spec).value)
  {
    var p, s := Trim(spec), Digits(port);
    DigitsNumber(port);
    if p == s {
      NoSeparator(p, ',');
      MemberCovers(Split(p, ','), ParsePorts(spec).value, p, port);
    } else if |Split(p, ',')| > 1 && (forall e :: e in Split(p, ',') ==> IsNumber(e)) {
      MemberCovers(Split(p, ','), ParsePorts(spec).value, s, port);
    } else {
      var ends := Split(p, '-');
      if ',' in p { SplitKeeps(p, '-', ','); }
      assert ',' !in p;
      NoSeparator(p, ',');
      RangeNotNumber(p);
      if p != "" { MemberCovers([p], ParsePorts(spec).value, p, port); }
    }
  }

  lemma {:induction false} RangeNotNumber(p: string)
    requires |Split(p, '-')| == 2
    ensures p != "" && !IsNumber(p)
  {
    if '-' !in p { NoSeparator(p, '-'); }
  }

  /******* Which specs are recognised in full *******/

  predicate AllNumbers(es: seq<string>) {
    forall e :: e in es ==> IsNumber(e)
  }

  /** Every number is on the list in the digits the program would print for it; a single range is
      fine; a list with a range in it is not, unless all it names is backwards ranges; nor is the
      blank spec, which opens every port. */
  predicate Recognised(spec: string) {
    var t := Trim(spec);
    var es := Split(t, ',');
    && t != ""
    && if AllNumbers(es) then forall e :: e in es ==> Digits(Value(e)) in es
       else |es| == 1 || (ParsePorts(spec).Some? && forall r :: r in ParsePorts(spec).value ==> r.lo > r.hi)
  }

  lemma {:induction false} SplitOne(s: string, separator: char)
    requires |Split(s, separator)| == 1
    ensures separator !in s && Split(s, separator) == [s]
  {
    if s != "" {
      SplitOne(s[1..], separator);
      assert s == [s[0]] + s[1..];
      NoSeparator(s, separator);
    }
  }

  lemma NumbersCover(spec: string, port: nat)
    requires Trim(spec) != "" && AllNumbers(Split(Trim(spec), ','))
    ensures CoversPort(spec, port) <==> Digits(port) in Split(Trim(spec), ',')
  {
    var t := Trim(spec);
    DigitsNumber(port);
    if t == Digits(port) { NoSeparator(t, ','); }
    if |Split(t, ',')| == 1 {
      SplitOne(t, ',');
      assert t in [t] && IsNumber(t);
      NoSeparator(t, '-');
    }
  }

  lemma NumbersOpen(es: seq<string>, ranges: seq<Range>, port: nat)
    requires AllNumbers(es) && ParseElements(es) == Some(ranges)
    ensures Within(port, ranges) <==> exists e :: e in es && Value(e) == port
  {
    if e :| e in es && Value(e) == port { MemberCovers(es, ranges, e, port); }
    if Within(port, ranges) {
      var r :| r in ranges && r.lo <= port <= r.hi;
      var i :| 0 <= i < |ranges| && ranges[i] == r;
      ParsedLength(es);
      ElementsIs(es, i);
      assert es[i] in es && Value(es[i]) == port;
    }
  }

  lemma {:induction false} ParsedLength(es: seq<string>)
    requires ParseElements(es).Some?
    ensures |ParseElements(es).value| == |es|
  {
    if es != [] { ElementsIs(es, 0); }
  }

  lemma NumbersRecognised(spec: string)
    requires Trim(spec) != "" && AllNumbers(Split(Trim(spec), ',')) && ParsePorts(spec).Some?
    ensures (forall port: nat :: CoversPort(spec, port) <==> Within(port, ParsePorts(spec).value)) <==> Recognised(spec)
  {
    var es, ranges := Split(Trim(spec), ','), ParsePorts(spec).value;
    forall port: nat
      ensures CoversPort(spec, port) <==> Digits(port) in es
      ensures Within(port, ranges) <==> exists e :: e in es && Value(e) == port
      ensures Digits(port) in es ==> Within(port, ranges)
    {
      NumbersCover(spec, port);
      NumbersOpen(es, ranges, port);
      DigitsRead(port);
    }
    if forall port: nat :: CoversPort(spec, port) <==> Within(port, ranges) {
      forall e | e in es ensures Digits(Value(e)) in es { assert Within(Value(e), ranges) && CoversPort(spec, Value(e)); }
    }
  }

  lemma RangeRecognised(spec: string, port: nat)
    requires Trim(spec) != "" && |Split(Trim(spec), ',')| == 1 && !AllNumbers(Split(Trim(spec), ',')) && ParsePorts(spec).Some?
    ensures CoversPort(spec, port) <==> Within(port, ParsePorts(spec).value)
  {
    var t, ranges := Trim(spec), ParsePorts(spec).value;
    SplitOne(t, ',');
    ParsedLength([t]);
    ElementsIs([t], 0);
    DigitsNumber(port);
    DigitsRead(port);
    assert ParseElement(t) == Some(ranges[0]) && !IsNumber(t);
    assert Within(port, ranges) <==> ranges[0].lo <= port <= ranges[0].hi by { assert ranges == [ranges[0]]; }
  }

  /** A list with a range in it is never recognised, whatever the port. */
  lemma MixedListMissed(spec: string, port: nat)
    requires |Split(Trim(spec), ',')| > 1 && !AllNumbers(Split(Trim(spec), ','))
    ensures !CoversPort(spec, port)
  {
    var t := Trim(spec);
    DigitsNumber(port);
    if ',' !in t { NoSeparator(t, ','); }
    CommaIsNoRange(t);
  }

  lemma CommaIsNoRange(t: string)
    requires ',' in t
    ensures !forall part :: part in Split(t, '-') ==> IsNumber(part)
  {
    SplitKeeps(t, '-', ',');
    var part :| part in Split(t, '-') && ',' in part;
    assert !IsDigit(',') && !IsNumber(part);
  }

  lemma MixedRecognised(spec: string)
    requires Trim(spec) != "" && |Split(Trim(spec), ',')| > 1 && !AllNumbers(Split(Trim(spec), ',')) && ParsePorts(spec).Some?
    ensures (forall port: nat :: CoversPort(spec, port) <==> Within(port, ParsePorts(spec).value)) <==> Recognised(spec)
  {
    var ranges := ParsePorts(spec).value;
    forall port: nat ensures !CoversPort(spec, port) { MixedListMissed(spec, port); }
    if r :| r in ranges && r.lo <= r.hi { assert Within(r.lo, ranges) && !CoversPort(spec, r.lo); }
  }

  /** A port and a range behind it, as in "22,8000-8100". */
  function PortAndRange(port: nat, lo: nat, hi: nat): string {
    Digits(port) + [','] + (Digits(lo) + ['-'] + Digits(hi))
  }

  lemma RangeRead(lo: nat, hi: nat)
    ensures var e := Digits(lo) + ['-'] + Digits(hi);
            ParseElement(e) == Some(Range(lo, hi)) && !IsNumber(e) && ',' !in e && e[|e| - 1] == Digits(hi)[|Digits(hi)| - 1]
  {
    DigitsRead(lo);
    DigitsRead(hi);
    var e := Digits(lo) + ['-'] + Digits(hi);
    assert e[|Digits(lo)|] == '-' && '-' in e;
    assert forall c :: c in e ==> c in Digits(lo) || c == '-' || c in Digits(hi);
    SplitAt(Digits(lo), '-', Digits(hi));
    NoSeparator(Digits(hi), '-');
  }

  lemma ParsedPair(a: string, b: string)
    requires ParseElement(a).Some? && ParseElement(b).Some?
    ensures ParseElements([a, b]) == Some([ParseElement(a).value, ParseElement(b).value])
  {
    var es, x, y := [a, b], ParseElement(a).value, ParseElement(b).value;
    assert [a][..0] == [] && ParseElements([]) == Some([]) && [] + [x] == [x];
    assert ParseElements([a]) == Some([x]);
    assert es[..1] == [a] && es[1] == b && [x] + [y] == [x, y];
    assert ParseElements(es[..|es| - 1]) == Some([x]) && ParseElement(es[|es| - 1]) == Some(y);
  }

  lemma Untrimmed(s: string)
    requires s != "" && !IsSpace(s[0]) && !IsSpace(s[|s| - 1])
    ensures Trim(s) == s
  {
  }

  lemma PortAndRangeParts(port: nat, lo: nat, hi: nat)
    ensures var spec := PortAndRange(port, lo, hi);
            Trim(spec) == spec && Split(spec, ',') == [Digits(port), Digits(lo) + ['-'] + Digits(hi)]
  {
    var a, b, spec := Digits(port), Digits(lo) + ['-'] + Digits(hi), PortAndRange(port, lo, hi);
    DigitsNumber(port);
    DigitsRead(port);
    DigitsRead(hi);
    RangeRead(lo, hi);
    SplitAt(a, ',', b);
    NoSeparator(b, ',');
    assert IsDigit(a[0]) && IsDigit(b[|b| - 1]) && spec[0] == a[0] && spec[|spec| - 1] == b[|b| - 1];
    Untrimmed(spec);
  }

  /** Such a list opens the port, and is taken to cover none. */
  lemma PortAndRangeMissed(port: nat, lo: nat, hi: nat, other: nat)
    ensures ParsePorts(PortAndRange(port, lo, hi)) == Some([Range(port, port), Range(lo, hi)])
    ensures Within(port, [Range(port, port), Range(lo, hi)]) && !CoversPort(PortAndRange(port, lo, hi), other)
  {
    var a, b, ranges := Digits(port), Digits(lo) + ['-'] + Digits(hi), [Range(port, port), Range(lo, hi)];
    PortAndRangeParts(port, lo, hi);
    DigitsNumber(port);
    RangeRead(lo, hi);
    ParsedPair(a, b);
    assert b in [a, b] && ranges[0] in ranges;
    MixedListMissed(PortAndRange(port, lo, hi), other);
  }

  lemma BlankMissed(spec: string)
    requires Trim(spec) == ""
    ensures !CoversPort(spec, 0) && Within(0, ParsePorts(spec).value)
  {
    assert ALL_PORTS[0] in ALL_PORTS && Split("", ',') == [""] && Split("", '-') == [""];
  }

  /** Exactly which well-formed specs are recognised for every port they open, and no other. */
  lemma CoversEverythingIff(spec: string)
    requires ParsePorts(spec).Some?
    ensures (forall port: nat :: CoversPort(spec, port) <==> Within(port, ParsePorts(spec).value)) <==> Recognised(spec)
  {
    if Trim(spec) == "" {
      BlankMissed(spec);
    } else if AllNumbers(Split(Trim(spec), ',')) {
      NumbersRecognised(spec);
    } else if |Split(Trim(spec), ',')| == 1 {
      forall port: nat ensures CoversPort(spec, port) <==> Within(port, ParsePorts(spec).value) { RangeRecognised(spec, port); }
    } else {
      MixedRecognised(spec);
    }
  }
}
