/** Derivation paths: parsing and printing "m/0/1/2". */
module DerivationPaths {

  const HARDENED_START: nat := 0x8000_0000
  const MAX_DEPTH: nat := 255
  const MAX_DIGITS: nat := 10
  const UINT32_LIMIT: nat := 0x1_0000_0000

  datatype PathError = InvalidPath | DepthOverflow | InvalidElement | HardenedUnsupported

  datatype Parsed = Path(indices: seq<nat>) | Failed(error: PathError)

  // -------------------------------------------------------------- decimal text

  predicate IsDigit(c: char) { '0' <= c <= '9' }

  predicate AllDigits(s: string) { forall i | 0 <= i < |s| :: IsDigit(s[i]) }

  function DigitChar(d: nat): (c: char)
    requires d < 10
    ensures IsDigit(c)
  {
    ('0' as int + d) as char
  }

  function DigitOf(c: char): nat
    requires IsDigit(c)
  {
    c as int - '0' as int
  }

  /** The decimal digits of a number, without leading zeros. */
  function Digits(n: nat): (s: string)
    ensures s != "" && AllDigits(s)
  {
    if n < 10 then [DigitChar(n)] else Digits(n / 10) + [DigitChar(n % 10)]
  }

  function Value(s: string): nat
    requires AllDigits(s)
  {
    if s == "" then 0 else Value(s[..|s| - 1]) * 10 + DigitOf(s[|s| - 1])
  }

  lemma {:induction false} ValueOfDigits(n: nat)
    ensures Value(Digits(n)) == n
  {
    if n >= 10 {
      ValueOfDigits(n / 10);
      var s := Digits(n / 10);
      assert (s + [DigitChar(n % 10)])[..|s|] == s;
    } else {
      assert [DigitChar(n)][..0] == "";
    }
  }

  predicate Canonical(part: string) { part != "" && (part == "0" || part[0] != '0') }

  lemma {:induction false} ValuePositive(s: string)
    requires AllDigits(s) && s != "" && s[0] != '0'
    ensures Value(s) > 0
  {
    if |s| > 1 { ValuePositive(s[..|s| - 1]); }
  }

  /** Printing the value of a numeral gives the numeral back exactly when it has no
      leading zero. */
  lemma {:induction false} DigitsOfValue(s: string)
    requires AllDigits(s) && s != ""
    ensures Digits(Value(s)) == s <==> Canonical(s)
  {
    var front, last := s[..|s| - 1], s[|s| - 1];
    assert s == front + [last];
    if front == "" {
      assert Value(s) == DigitOf(last);
      assert Digits(Value(s)) == [DigitChar(DigitOf(last))] == [last];
    } else {
      DigitsOfValue(front);
      var v := Value(front);
      if front == "0" {
        ValueZero();
        assert |Digits(Value(s))| == 1;
      } else if s[0] != '0' {
        ValuePositive(front);
        assert Value(s) / 10 == v && Value(s) % 10 == DigitOf(last);
      } else {
        NoLeadingZero(Value(s));
      }
    }
  }

  lemma ValueZero()
    ensures Value("0") == 0
  {
    assert "0"[..0] == "";
  }

  lemma {:induction false} NoLeadingZero(n: nat)
    ensures Canonical(Digits(n))
  {
    if n >= 10 {
      NoLeadingZero(n / 10);
      assert Digits(n)[0] == Digits(n / 10)[0];
      ValueOfDigits(n / 10);
      ValueZero();
    }
  }

  lemma {:induction false} DigitsLength(n: nat, k: nat)
    requires k > 0 && n < Power(k)
    ensures |Digits(n)| <= k
  {
    if n >= 10 { DigitsLength(n / 10, k - 1); }
  }

  function Power(k: nat): nat { if k == 0 then 1 else 10 * Power(k - 1) }

  lemma IndexLength(n: nat)
    requires n < HARDENED_START
    ensures |Digits(n)| <= MAX_DIGITS
  {
    assert Power(10) == 10000000000 by {
      assert Power(5) == 100000;
      assert Power(10) == 10 * (10 * (10 * (10 * (10 * Power(5)))));
    }
    DigitsLength(n, 10);
  }

  // --------------------------------------------------------- splitting at slashes

  function Slashes(s: string): nat {
    if s == "" then 0 else (if s[0] == '/' then 1 else 0) + Slashes(s[1..])
  }

  /** The parts between slashes; an empty text has one empty part. */
  function Split(s: string): (parts: seq<string>)
    ensures |parts| == Slashes(s) + 1
  {
    if s == "" then [""]
    else
      var rest := Split(s[1..]);
      if s[0] == '/' then [""] + rest else [[s[0]] + rest[0]] + rest[1..]
  }

  function Join(parts: seq<string>): string
    requires parts != []
  {
    if |parts| == 1 then parts[0] else parts[0] + "/" + Join(parts[1..])
  }

  lemma {:induction false} JoinOfSplit(s: string)
    ensures Join(Split(s)) == s && forall i | 0 <= i < |Split(s)| :: '/' !in Split(s)[i]
  {
    if s != "" {
      JoinOfSplit(s[1..]);
      var rest := Split(s[1..]);
      assert s == [s[0]] + s[1..];
      if s[0] == '/' {
        assert ([""] + rest)[1..] == rest;
      } else {
        var parts := [[s[0]] + rest[0]] + rest[1..];
        assert parts[1..] == rest[1..];
      }
    }
  }

  lemma {:induction false} SplitPrefix(part: string, rest: string)
    requires '/' !in part
    ensures Split(part + "/" + rest) == [part] + Split(rest)
    ensures Split(part) == [part]
  {
    if part == "" {
      assert part + "/" + rest == "/" + rest;
      assert ("/" + rest)[1..] == rest;
    } else {
      SplitPrefix(part[1..], rest);
      assert (part + "/" + rest)[1..] == part[1..] + "/" + rest;
      assert part == [part[0]] + part[1..];
    }
  }

  lemma {:induction false} SplitOfJoin(parts: seq<string>)
    requires parts != [] && forall i | 0 <= i < |parts| :: '/' !in parts[i]
    ensures Split(Join(parts)) == parts
  {
    if |parts| == 1 {
      SplitPrefix(parts[0], "");
    } else {
      SplitOfJoin(parts[1..]);
      SplitPrefix(parts[0], Join(parts[1..]));
      assert parts == [parts[0]] + parts[1..];
    }
  }

  // -------------------------------------------------------------------- parsing

  predicate Hardened(part: string) { part != "" && part[|part| - 1] in {'\'', 'h', 'H'} }

  /** One element: the error it is refused with, or its index. */
  function ParseElement(part: string): Parsed {
    if part == "" || |part| > MAX_DIGITS then Failed(InvalidElement)
    else if Hardened(part) then Failed(HardenedUnsupported)
    else if !AllDigits(part) || Value(part) >= UINT32_LIMIT then Failed(InvalidElement)
    else Path([Value(part)])
  }

  /** The elements in order, up to the first that is refused. */
  function ParseElements(parts: seq<string>): Parsed {
    if parts == [] then Path([])
    else
      var front := ParseElements(parts[..|parts| - 1]);
      if front.Failed? then front
      else
        var last := ParseElement(parts[|parts| - 1]);
        if last.Failed? then last else Path(front.indices + last.indices)
  }

  predicate NonHardened(path: seq<nat>) { |path| <= MAX_DEPTH && forall i | 0 <= i < |path| :: path[i] < HARDENED_START }

  function Parse(s: string): Parsed {
    if s == "m" then Path([])
    else if !("m/" <= s) then Failed(InvalidPath)
    else if Slashes(s[2..]) + 1 > MAX_DEPTH then Failed(DepthOverflow)
    else
      var parsed := ParseElements(Split(s[2..]));
      if parsed.Failed? then parsed
      else if !NonHardened(parsed.indices) then Failed(HardenedUnsupported)
      else parsed
  }

  function Texts(path: seq<nat>): (r: seq<string>)
    ensures |r| == |path| && forall i | 0 <= i < |path| :: r[i] == Digits(path[i])
  {
    seq(|path|, i requires 0 <= i < |path| => Digits(path[i]))
  }

  function Render(path: seq<nat>): string {
    if path == [] then "m" else "m/" + Join(Texts(path))
  }

  method ParseDerivationPath(s: string) returns (r: Parsed)
    ensures r == Parse(s)
  {
    if s == "m" { return Path([]); }
    if !("m/" <= s) { return Failed(InvalidPath); }
    if Slashes(s[2..]) + 1 > MAX_DEPTH { return Failed(DepthOverflow); }
    var parts := Split(s[2..]);
    var out: seq<nat> := [];
    for i := 0 to |parts|
      invariant ParseElements(parts[..i]) == Path(out)
    {
      var element := ParseElement(parts[i]);
      assert parts[..i + 1][..i] == parts[..i];
      if element.Failed? {
        FirstFailure(parts, i + 1);
        return element;
      }
      out := out + element.indices;
    }
    assert parts[..|parts|] == parts;
    if !NonHardened(out) { return Failed(HardenedUnsupported); }
    return Path(out);
  }

  lemma {:induction false} FirstFailure(parts: seq<string>, i: nat)
    requires i <= |parts| && ParseElements(parts[..i]).Failed?
    ensures ParseElements(parts) == ParseElements(parts[..i])
    decreases |parts| - i
  {
    if i == |parts| {
      assert parts[..i] == parts;
    } else {
      assert parts[..i + 1][..i] == parts[..i];
      FirstFailure(parts, i + 1);
    }
  }

  method RenderPath(path: seq<nat>) returns (s: string)
    ensures s == Render(path)
  {
    if path == [] { return "m"; }
    s := "m";
    for i := 0 to |path|
      invariant i == 0 ==> s == "m"
      invariant i > 0 ==> s == Render(path[..i])
    {
      s := s + "/" + Digits(path[i]);
      JoinAppend(path[..i], path[i]);
      assert path[..i + 1] == path[..i] + [path[i]];
    }
    assert path[..|path|] == path;
  }

  lemma JoinAppend(path: seq<nat>, n: nat)
    ensures Render(path + [n]) == (if path == [] then "m" else Render(path)) + "/" + Digits(n)
  {
    assert Texts(path + [n]) == Texts(path) + [Digits(n)];
    if path == [] {
      assert Texts([n]) == [Digits(n)];
      assert path + [n] == [n];
      assert "m/" + Digits(n) == "m" + "/" + Digits(n);
    } else {
      JoinLast(Texts(path), Digits(n));
      assert "m/" + (Join(Texts(path)) + "/" + Digits(n)) == ("m/" + Join(Texts(path))) + "/" + Digits(n);
    }
  }

  lemma {:induction false} JoinLast(parts: seq<string>, last: string)
    requires parts != []
    ensures Join(parts + [last]) == Join(parts) + "/" + last
  {
    if |parts| == 1 {
      assert (parts + [last])[1..] == [last];
    } else {
      JoinLast(parts[1..], last);
      assert (parts + [last])[1..] == parts[1..] + [last];
      assert parts[0] + "/" + (Join(parts[1..]) + "/" + last) == (parts[0] + "/" + Join(parts[1..])) + "/" + last;
    }
  }

  // ------------------------------------------------------------------ round trips

  lemma {:induction false} ElementsOfTexts(path: seq<nat>)
    requires forall i | 0 <= i < |path| :: path[i] < HARDENED_START
    ensures ParseElements(Texts(path)) == Path(path)
  {
    if path != [] {
      var front, last := path[..|path| - 1], path[|path| - 1];
      ElementsOfTexts(front);
      assert Texts(path)[..|path| - 1] == Texts(front);
      ValueOfDigits(last);
      IndexLength(last);
      assert path == front + [last];
    }
  }

  lemma DigitsNoSlash(n: nat)
    ensures '/' !in Digits(n)
  {
    var s := Digits(n);
    forall i | 0 <= i < |s| ensures s[i] != '/' { assert IsDigit(s[i]); }
  }

  /** Parsing what is printed gives the path back exactly when the path is one that
      validation allows. */
  lemma ParseOfRender(path: seq<nat>)
    ensures Parse(Render(path)) == Path(path) <==> NonHardened(path)
  {
    if path != [] && NonHardened(path) {
      var texts := Texts(path);
      forall i | 0 <= i < |texts| ensures '/' !in texts[i] { DigitsNoSlash(path[i]); }
      SplitOfJoin(texts);
      ElementsOfTexts(path);
      assert Render(path)[2..] == Join(texts);
      assert |Split(Join(texts))| == Slashes(Join(texts)) + 1;
    }
  }

  lemma {:induction false} ParsedElements(parts: seq<string>)
    requires ParseElements(parts).Path?
    ensures |ParseElements(parts).indices| == |parts|
    ensures forall i | 0 <= i < |parts| :: parts[i] != "" && AllDigits(parts[i]) && ParseElements(parts).indices[i] == Value(parts[i])
  {
    if parts != [] { ParsedElements(parts[..|parts| - 1]); }
  }

  /** Printing what is parsed gives the text back exactly when no element has a
      leading zero. */
  lemma RenderOfParse(s: string)
    requires Parse(s).Path?
    ensures Render(Parse(s).indices) == s
       <==> s == "m" || forall i | 0 <= i < |Split(s[2..])| :: Canonical(Split(s[2..])[i])
  {
    if s != "m" {
      var parts, path := Split(s[2..]), Parse(s).indices;
      assert s == "m/" + s[2..];
      ParsedElements(parts);
      JoinOfSplit(s[2..]);
      forall i | 0 <= i < |parts| ensures Digits(path[i]) == parts[i] <==> Canonical(parts[i]) { DigitsOfValue(parts[i]); }
      if forall i | 0 <= i < |parts| :: Canonical(parts[i]) {
        assert Texts(path) == parts;
      }
      if Render(path) == s {
        assert Join(Texts(path)) == s[2..] by { assert Render(path)[2..] == Join(Texts(path)); }
        forall i | 0 <= i < |parts| ensures '/' !in Texts(path)[i] { DigitsNoSlash(path[i]); }
        SplitOfJoin(Texts(path));
        forall i | 0 <= i < |parts| ensures Canonical(parts[i]) { assert Texts(path)[i] == parts[i]; }
      }
    }
  }
}
