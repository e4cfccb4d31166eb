/** Python value semantics the rest of the model relies on: `None`, truthiness,
    `str.isspace`, `str.split()`, `str.join`, `str.strip()`, `str(int)` and list slicing. */
module Common {

  datatype Option<+T> = None | Some(value: T) {
    /** `d.get(key, default)` once the lookup has produced this option. */
    function GetOr(default: T): T {
      if Some? then value else default
    }
  }

  /** Python truthiness of an optional string: `None` and `""` are false. */
  predicate Truthy(s: Option<string>) {
    s.Some? && s.value != ""
  }

  /** The characters for which Python's `str.isspace()` holds; `str.split()`,
      `str.strip()` and the regular-expression class `\s` all use this set. */
  predicate IsSpace(c: char) {
    var n := c as int;
    if n <= 0x20 then n == 0x20 || 0x09 <= n <= 0x0D || 0x1C <= n <= 0x1F
    else if n < 0x85 then false
    else
      || n == 0x85 || n == 0xA0 || n == 0x1680 || 0x2000 <= n <= 0x200A
      || n == 0x2028 || n == 0x2029 || n == 0x202F || n == 0x205F || n == 0x3000
  }

  predicate NoSpace(w: string) {
    forall i :: 0 <= i < |w| ==> !IsSpace(w[i])
  }

  /** A word of `str.split()`: a non-empty run of non-space characters. */
  predicate IsWord(w: string) {
    w != [] && NoSpace(w)
  }

  // ---------------------------------------------------------------- split

  function DropSpaces(s: string): (t: string)
    ensures |t| <= |s| && t == s[|s| - |t|..]
    ensures t == [] || !IsSpace(t[0])
    ensures forall i :: 0 <= i < |s| - |t| ==> IsSpace(s[i])
  {
    if s != [] && IsSpace(s[0]) then DropSpaces(s[1..]) else s
  }

  /** The longest space-free prefix of `s`. */
  function WordPrefix(s: string): (w: string)
    ensures w <= s && NoSpace(w)
    ensures |w| < |s| ==> IsSpace(s[|w|])
  {
    if s == [] || IsSpace(s[0]) then [] else [s[0]] + WordPrefix(s[1..])
  }

  /** `s.split()`: the maximal runs of non-space characters, in order. */
  function Words(s: string): (ws: seq<string>)
    ensures forall i :: 0 <= i < |ws| ==> IsWord(ws[i])
    decreases |s|
  {
    var t := DropSpaces(s);
    if t == [] then []
    else
      var w := WordPrefix(t);
      [w] + Words(t[|w|..])
  }

  /** `len(s.split())`, the word count the handlers store with a post. */
  function WordCount(s: string): nat {
    |Words(s)|
  }

  /** `sep.join(parts)`. */
  function Join(parts: seq<string>, sep: string): string {
    if parts == [] then ""
    else if |parts| == 1 then parts[0]
    else parts[0] + sep + Join(parts[1..], sep)
  }

  lemma WordPrefixOfWord(w: string, rest: string)
    requires NoSpace(w)
    requires rest == [] || IsSpace(rest[0])
    ensures WordPrefix(w + rest) == w
  {
    if w != [] {
      assert (w + rest)[1..] == w[1..] + rest;
      WordPrefixOfWord(w[1..], rest);
    }
  }

  lemma WordsOfSpaceThen(r: string)
    ensures Words(" " + r) == Words(r)
  {
    assert (" " + r)[1..] == r;
  }

  lemma WordsOfWordThen(w: string, rest: string)
    requires IsWord(w)
    requires rest == [] || IsSpace(rest[0])
    ensures Words(w + rest) == [w] + Words(rest)
  {
    assert DropSpaces(w + rest) == w + rest;
    WordPrefixOfWord(w, rest);
    assert (w + rest)[|w|..] == rest;
  }

  /** Splitting undoes joining with a single space: `" ".join(ws).split() == ws`
      whenever every element is a word. */
  lemma {:induction false} WordsOfJoin(ws: seq<string>)
    requires forall i :: 0 <= i < |ws| ==> IsWord(ws[i])
    ensures Words(Join(ws, " ")) == ws
  {
    if ws == [] {
      assert Join(ws, " ") == [];
    } else if |ws| == 1 {
      WordsOfOne(ws);
    } else {
      WordsOfJoin(ws[1..]);
      WordsOfJoinStep(ws);
    }
  }

  /** A single word splits into itself. */
  lemma WordsOfOne(ws: seq<string>)
    requires |ws| == 1 && IsWord(ws[0])
    ensures Words(Join(ws, " ")) == ws
  {
    var w := ws[0];
    assert Join(ws, " ") == w;
    assert Words(w) == [w] by {
      WordsOfWordThen(w, "");
      assert w + "" == w;
      assert Words("") == [];
    }
    assert ws == [w];
  }

  /** The inductive step: the first word, then the words of the joined rest. */
  lemma WordsOfJoinStep(ws: seq<string>)
    requires |ws| > 1 && IsWord(ws[0])
    requires Words(Join(ws[1..], " ")) == ws[1..]
    ensures Words(Join(ws, " ")) == ws
  {
    JoinCons(ws, " ");
    WordsOfWordSpace(ws[0], Join(ws[1..], " "));
    HeadTail(ws);
  }

  /** A word, one space, then more text: the word, then the words of the rest. */
  lemma WordsOfWordSpace(w: string, tail: string)
    requires IsWord(w)
    ensures Words(w + (" " + tail)) == [w] + Words(tail)
  {
    assert (" " + tail)[0] == ' ';
    WordsOfWordThen(w, " " + tail);
    WordsOfSpaceThen(tail);
  }

  lemma HeadTail<T>(s: seq<T>)
    requires s != []
    ensures s == [s[0]] + s[1..]
  {
  }

  lemma JoinCons(parts: seq<string>, sep: string)
    requires |parts| > 1
    ensures Join(parts, sep) == parts[0] + (sep + Join(parts[1..], sep))
  {
    assert parts[0] + sep + Join(parts[1..], sep) == parts[0] + (sep + Join(parts[1..], sep));
  }

  // ---------------------------------------------------------------- split layout

  predicate AllSpace(g: string) {
    forall i :: 0 <= i < |g| ==> IsSpace(g[i])
  }

  /** `gaps[0] + ws[0] + gaps[1] + ... + ws[n-1] + gaps[n]`. */
  function Weave(gaps: seq<string>, ws: seq<string>): string
    requires |gaps| == |ws| + 1
    decreases |ws|
  {
    if ws == [] then gaps[0] else gaps[0] + ws[0] + Weave(gaps[1..], ws[1..])
  }

  /** `s` is the words `ws` separated by the runs of spaces `gaps`: leading and
      trailing runs may be empty, the runs between two words may not. */
  predicate Layout(gaps: seq<string>, ws: seq<string>, s: string) {
    && |gaps| == |ws| + 1
    && (forall i :: 0 <= i < |gaps| ==> AllSpace(gaps[i]))
    && (forall i :: 0 < i < |ws| ==> gaps[i] != [])
    && (forall i :: 0 <= i < |ws| ==> IsWord(ws[i]))
    && Weave(gaps, ws) == s
  }

  /** The runs of spaces around and between the words of `s`. */
  function Gaps(s: string): (gs: seq<string>)
    decreases |s|
  {
    var t := DropSpaces(s);
    if t == [] then [s]
    else
      var w := WordPrefix(t);
      [s[..|s| - |t|]] + Gaps(t[|w|..])
  }

  /** Every string is its words separated by runs of spaces. */
  lemma {:induction false} WordsLayout(s: string)
    ensures Layout(Gaps(s), Words(s), s)
    decreases |s|
  {
    var t := DropSpaces(s);
    if t == [] {
      LayoutOfSpaces(s);
    } else {
      var w := WordPrefix(t);
      var rest := t[|w|..];
      var g0 := s[..|s| - |t|];
      GapsStep(s, t, w);
      WordsStep(s, t, w);
      SplitPieces(s, t, w);
      WordsLayout(rest);
      if Words(rest) != [] {
        FirstGapOfSpace(rest);
      }
      LayoutCons(g0, w, Gaps(rest), Words(rest), rest);
      var gs, ws := [g0] + Gaps(rest), [w] + Words(rest);
      assert Gaps(s) == gs && Words(s) == ws && s == g0 + w + rest;
    }
  }

  /** A string of spaces only is one run and no words. */
  lemma LayoutOfSpaces(s: string)
    requires DropSpaces(s) == []
    ensures Layout(Gaps(s), Words(s), s)
  {
    assert Gaps(s) == [s] && Words(s) == [];
    assert AllSpace(s);
  }

  /** One step of `Gaps`: the leading run, then the runs after the first word. */
  lemma GapsStep(s: string, t: string, w: string)
    requires t == DropSpaces(s) && t != [] && w == WordPrefix(t)
    ensures Gaps(s) == [s[..|s| - |t|]] + Gaps(t[|w|..])
  {
  }

  /** One step of `Words`: the first word, then the words after it. */
  lemma WordsStep(s: string, t: string, w: string)
    requires t == DropSpaces(s) && t != [] && w == WordPrefix(t)
    ensures Words(s) == [w] + Words(t[|w|..])
  {
  }

  lemma SplitPieces(s: string, t: string, w: string)
    requires t == DropSpaces(s) && t != [] && w == WordPrefix(t)
    ensures s == s[..|s| - |t|] + w + t[|w|..]
    ensures AllSpace(s[..|s| - |t|]) && IsWord(w)
    ensures t[|w|..] == [] || IsSpace(t[|w|..][0])
  {
    SplitConcat(s, t, w);
    LeadingRun(s, t);
  }

  lemma SplitConcat(s: string, t: string, w: string)
    requires |t| <= |s| && t == s[|s| - |t|..] && w <= t
    ensures s == s[..|s| - |t|] + w + t[|w|..]
  {
    var g0, rest := s[..|s| - |t|], t[|w|..];
    assert t == w + rest;
    assert s == g0 + t;
    Assoc(g0, w, rest);
  }

  lemma LeadingRun(s: string, t: string)
    requires t == DropSpaces(s)
    ensures AllSpace(s[..|s| - |t|])
  {
    var g0 := s[..|s| - |t|];
    assert forall i :: 0 <= i < |g0| ==> g0[i] == s[i];
  }

  lemma Assoc(a: string, b: string, c: string)
    ensures a + b + c == a + (b + c)
  {
  }

  lemma LayoutCons(g0: string, w: string, gs: seq<string>, ws: seq<string>, rest: string)
    requires Layout(gs, ws, rest) && AllSpace(g0) && IsWord(w)
    requires ws != [] ==> gs[0] != []
    ensures Layout([g0] + gs, [w] + ws, g0 + w + rest)
  {
    var gaps, words := [g0] + gs, [w] + ws;
    assert gaps[1..] == gs && words[1..] == ws;
    assert forall i :: 0 < i < |gaps| ==> gaps[i] == gs[i - 1];
    assert forall i :: 0 < i < |words| ==> words[i] == ws[i - 1];
  }

  /** A string that starts with a space has a non-empty leading run. */
  lemma FirstGapOfSpace(s: string)
    requires s != [] && IsSpace(s[0])
    ensures Gaps(s)[0] != []
  {
  }

  /** Conversely, words separated by runs of spaces are what `str.split()`
      returns, so `Words` is the only such decomposition. */
  lemma {:induction false} LayoutWords(gaps: seq<string>, ws: seq<string>, s: string)
    requires Layout(gaps, ws, s)
    ensures Words(s) == ws
    decreases |ws|
  {
    if ws == [] {
      WordsOfSpaces(gaps[0], "");
      assert gaps[0] + "" == s;
    } else {
      var rest := Weave(gaps[1..], ws[1..]);
      LayoutTail(gaps, ws, s);
      LayoutWords(gaps[1..], ws[1..], rest);
      WordsOfSpaces(gaps[0], ws[0] + rest);
      WordsOfWordThen(ws[0], rest);
      HeadTail(ws);
    }
  }

  lemma LayoutTail(gaps: seq<string>, ws: seq<string>, s: string)
    requires Layout(gaps, ws, s) && ws != []
    ensures var rest := Weave(gaps[1..], ws[1..]);
      && Layout(gaps[1..], ws[1..], rest)
      && s == gaps[0] + (ws[0] + rest)
      && AllSpace(gaps[0]) && IsWord(ws[0])
      && (rest == [] || IsSpace(rest[0]))
  {
    var rest := Weave(gaps[1..], ws[1..]);
    assert forall i :: 0 < i < |ws[1..]| ==> gaps[1..][i] == gaps[i + 1];
    assert gaps[0] + ws[0] + rest == gaps[0] + (ws[0] + rest);
    if ws[1..] != [] {
      assert gaps[1] != [];
      assert rest[0] == gaps[1][0];
    } else if rest != [] {
      assert rest == gaps[1];
    }
  }

  /** Leading spaces do not change the words. */
  lemma {:induction false} WordsOfSpaces(g: string, r: string)
    requires AllSpace(g)
    ensures Words(g + r) == Words(r)
    decreases |g|
  {
    if g != [] {
      assert g + r == [g[0]] + (g[1..] + r);
      assert IsSpace(g[0]);
      assert AllSpace(g[1..]) by {
        forall i | 0 <= i < |g[1..]| ensures IsSpace(g[1..][i]) {
          assert g[1..][i] == g[i + 1];
        }
      }
      WordsOfSpaces(g[1..], r);
      WordsOfSpaceChar(g[0], g[1..] + r);
    } else {
      assert g + r == r;
    }
  }

  lemma WordsOfSpaceChar(c: char, r: string)
    requires IsSpace(c)
    ensures Words([c] + r) == Words(r)
  {
    assert ([c] + r)[1..] == r;
    assert DropSpaces([c] + r) == DropSpaces(r);
  }

  // ---------------------------------------------------------------- strip

  function StripLeft(s: string): (t: string)
    ensures t == DropSpaces(s)
  {
    DropSpaces(s)
  }

  function StripRight(s: string): (t: string)
    ensures t <= s
    ensures t == [] || !IsSpace(t[|t| - 1])
    ensures forall i :: |t| <= i < |s| ==> IsSpace(s[i])
  {
    if s != [] && IsSpace(s[|s| - 1]) then StripRight(s[..|s| - 1]) else s
  }

  /** `s.strip()`: `s` without its leading and trailing space characters. */
  function Strip(s: string): (t: string)
    ensures t == [] || (!IsSpace(t[0]) && !IsSpace(t[|t| - 1]))
    ensures var k := |s| - |DropSpaces(s)|;
      && k + |t| <= |s| && (forall i :: 0 <= i < |t| ==> t[i] == s[k + i])
      && (forall i :: 0 <= i < k ==> IsSpace(s[i]))
      && (forall i :: k + |t| <= i < |s| ==> IsSpace(s[i]))
  {
    StripRight(StripLeft(s))
  }

  // ---------------------------------------------------------------- str(int)

  function DigitChar(d: nat): char
    requires d < 10
  {
    "0123456789"[d]
  }

  /** `str(n)` for a natural number: decimal digits, no leading zero. */
  function Decimal(n: nat): (s: string)
    ensures |s| >= 1
    ensures |s| == 1 <==> n < 10
    ensures forall i :: 0 <= i < |s| ==> '0' <= s[i] <= '9'
  {
    if n < 10 then [DigitChar(n)] else Decimal(n / 10) + [DigitChar(n % 10)]
  }

  /** `str(i)` for any integer. */
  function IntToString(i: int): string {
    if i < 0 then "-" + Decimal(-i) else Decimal(i)
  }

  lemma {:induction false} DecimalInjective(a: nat, b: nat)
    requires Decimal(a) == Decimal(b)
    ensures a == b
  {
    var s := Decimal(a);
    if a >= 10 && b >= 10 {
      assert s[|s| - 1] == DigitChar(a % 10) == DigitChar(b % 10);
      assert Decimal(a / 10) == s[..|s| - 1] == Decimal(b / 10);
      DecimalInjective(a / 10, b / 10);
    } else if a < 10 && b < 10 {
      assert DigitChar(a) == s[0] == DigitChar(b);
    }
  }

  /** Distinct integers have distinct decimal forms, so a name built from an id
      identifies the id. */
  lemma IntToStringInjective(a: int, b: int)
    requires IntToString(a) == IntToString(b)
    ensures a == b
  {
    if a < 0 && b < 0 {
      assert Decimal(-a) == IntToString(a)[1..] == Decimal(-b);
      DecimalInjective(-a, -b);
    } else if a >= 0 && b >= 0 {
      DecimalInjective(a, b);
    } else {
      IntToStringSign(a);
      IntToStringSign(b);
    }
  }

  lemma IntToStringSign(i: int)
    ensures IntToString(i) != [] && (IntToString(i)[0] == '-' <==> i < 0)
  {
  }

  // ---------------------------------------------------------------- slices

  function Min(a: int, b: int): int { if a <= b then a else b }

  function Max(a: int, b: int): int { if a <= b then b else a }

  /** Where a Python slice bound `i` lands in a sequence of length `n`. */
  function SliceIndex(i: int, n: nat): (k: nat)
    ensures k <= n
    ensures 0 <= i ==> k == Min(i, n)
    ensures i < 0 ==> k == Max(0, i + n)
  {
    if i < 0 then (if i + n < 0 then 0 else i + n) else if i > n then n else i
  }

  /** `s[i:j]` with Python's rules for negative and out-of-range bounds. */
  function PySlice<T>(s: seq<T>, i: int, j: int): (r: seq<T>)
    ensures |r| <= |s|
    ensures 0 <= i && 0 <= j ==> |r| == Max(0, Min(j, |s|) - Min(i, |s|))
    ensures 0 <= i ==> forall k :: 0 <= k < |r| ==> i + k < |s| && r[k] == s[i + k]
    ensures |r| == Max(0, SliceIndex(j, |s|) - SliceIndex(i, |s|))
    ensures forall k :: 0 <= k < |r| ==>
      SliceIndex(i, |s|) + k < |s| && r[k] == s[SliceIndex(i, |s|) + k]
  {
    var a, b := SliceIndex(i, |s|), SliceIndex(j, |s|);
    if a <= b then s[a..b] else []
  }

  /** A slice `s[i:j]` with `i <= j` is no longer than `j - i`, unless `j`
      alone is negative and so counts from the end. */
  lemma PySliceBound<T>(s: seq<T>, i: int, j: int)
    ensures i <= j && (i < 0 || 0 <= j) ==> |PySlice(s, i, j)| <= j - i
  {
    var n := |s|;
    if i <= j && i < 0 && j >= 0 {
      assert SliceIndex(j, n) <= j;
    }
  }

  /** `s[:n]` for a non-negative `n`. */
  function Take(s: string, n: nat): (t: string)
    ensures t <= s && |t| == Min(n, |s|)
  {
    if |s| <= n then s else s[..n]
  }
}
