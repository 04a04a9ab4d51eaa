/** The Python string operations the modelled code relies on, over
    `string` (= seq<char>).  Case mapping is ASCII only; int() and float()
    accept the decimal subset described at ParseInt and ParseFloat. */
module Text {
  import opened Outcomes

  // ---------------------------------------------------------------- case

  function UpperChar(c: char): char {
    if 'a' <= c <= 'z' then (c as int - 32) as char else c
  }

  function LowerChar(c: char): char {
    if 'A' <= c <= 'Z' then (c as int + 32) as char else c
  }

  /** str.upper() */
  function Upper(s: string): (r: string)
    ensures |r| == |s|
  {
    seq(|s|, i requires 0 <= i < |s| => UpperChar(s[i]))
  }

  /** str.lower() */
  function Lower(s: string): (r: string)
    ensures |r| == |s|
  {
    seq(|s|, i requires 0 <= i < |s| => LowerChar(s[i]))
  }

  /** A text without capitals is its own lower case. */
  lemma LowerKeeps(s: string)
    requires forall i :: 0 <= i < |s| ==> !('A' <= s[i] <= 'Z')
    ensures Lower(s) == s
  {
  }

  lemma UpperConcat(a: string, b: string)
    ensures Upper(a + b) == Upper(a) + Upper(b)
  {
    assert forall i :: 0 <= i < |a + b| ==> Upper(a + b)[i] == (Upper(a) + Upper(b))[i];
  }

  lemma LowerConcat(a: string, b: string)
    ensures Lower(a + b) == Lower(a) + Lower(b)
  {
    assert forall i :: 0 <= i < |a + b| ==> Lower(a + b)[i] == (Lower(a) + Lower(b))[i];
  }

  // ---------------------------------------------------------- substrings

  predicate OccursAt(s: string, w: string, i: nat) {
    i + |w| <= |s| && s[i..i + |w|] == w
  }

  lemma OccursShift(s: string, w: string, j: nat)
    requires |s| > 0
    ensures OccursAt(s, w, j + 1) <==> OccursAt(s[1..], w, j)
  {
    if j + 1 + |w| <= |s| {
      assert s[1..][j..j + |w|] == s[j + 1..j + 1 + |w|];
    }
  }

  /** str.find: the first position at which `w` occurs. */
  function IndexOf(s: string, w: string): Option<nat>
    decreases |s|
  {
    if OccursAt(s, w, 0) then Some(0)
    else if |s| == 0 then None
    else
      match IndexOf(s[1..], w)
      case None => None
      case Some(k) => Some(k + 1)
  }

  /** IndexOf finds the first occurrence, and None means there is none. */
  lemma {:induction false} IndexOfFirst(s: string, w: string)
    ensures IndexOf(s, w).Some? ==> OccursAt(s, w, IndexOf(s, w).value)
    ensures IndexOf(s, w).Some? ==> forall j: nat :: j < IndexOf(s, w).value ==> !OccursAt(s, w, j)
    ensures IndexOf(s, w).None? ==> forall j: nat :: !OccursAt(s, w, j)
    decreases |s|
  {
    if !OccursAt(s, w, 0) && |s| > 0 {
      IndexOfFirst(s[1..], w);
      forall j: nat
        ensures OccursAt(s, w, j + 1) <==> OccursAt(s[1..], w, j)
      {
        OccursShift(s, w, j);
      }
      forall j: nat | (IndexOf(s, w).Some? && j < IndexOf(s, w).value) || IndexOf(s, w).None?
        ensures !OccursAt(s, w, j)
      {
        if j > 0 {
          OccursShift(s, w, j - 1);
        }
      }
      if IndexOf(s, w).Some? {
        OccursShift(s, w, IndexOf(s, w).value - 1);
      }
    } else if !OccursAt(s, w, 0) {
      forall j: nat ensures !OccursAt(s, w, j) {
        if j > 0 {
          assert j + |w| > |s|;
        }
      }
    }
  }

  /** `w in s` for strings */
  predicate Contains(s: string, w: string) {
    IndexOf(s, w).Some?
  }

  lemma ContainsOccurs(s: string, w: string, i: nat)
    requires OccursAt(s, w, i)
    ensures Contains(s, w)
  {
    IndexOfFirst(s, w);
  }

  /** Concatenation regrouped. */
  lemma AppendAssoc<T>(a: seq<T>, b: seq<T>, c: seq<T>)
    ensures (a + b) + c == a + (b + c)
  {
  }

  // ------------------------------------------------------- split and join

  /** sep.join(parts) */
  function Join(parts: seq<string>, sep: string): string
    decreases |parts|
  {
    if |parts| == 0 then ""
    else if |parts| == 1 then parts[0]
    else parts[0] + sep + Join(parts[1..], sep)
  }

  /** s.split(sep) for a non-empty separator: cut at every occurrence of
      `sep`, scanning from the left; always at least one piece. */
  function Split(s: string, sep: string): (r: seq<string>)
    requires sep != []
    ensures |r| >= 1
    decreases |s|
  {
    if |s| < |sep| then [s]
    else if s[..|sep|] == sep then [""] + Split(s[|sep|..], sep)
    else
      var rest := Split(s[1..], sep);
      [[s[0]] + rest[0]] + rest[1..]
  }

  lemma JoinHead(c: char, parts: seq<string>, sep: string)
    requires |parts| >= 1
    ensures Join([[c] + parts[0]] + parts[1..], sep) == [c] + Join(parts, sep)
  {
    var q := [[c] + parts[0]] + parts[1..];
    assert q[1..] == parts[1..];
  }

  /** Splitting loses nothing: joining the pieces with the separator gives
      the text back. */
  lemma {:induction false} JoinSplit(s: string, sep: string)
    requires sep != []
    ensures Join(Split(s, sep), sep) == s
    decreases |s|
  {
    if |s| < |sep| {
    } else if s[..|sep|] == sep {
      var rest := Split(s[|sep|..], sep);
      JoinSplit(s[|sep|..], sep);
      assert ([""] + rest)[1..] == rest;
      assert s == sep + s[|sep|..];
    } else {
      var rest := Split(s[1..], sep);
      JoinSplit(s[1..], sep);
      JoinHead(s[0], rest, sep);
      assert s == [s[0]] + s[1..];
    }
  }

  /** No character of `a` starts the separator. */
  predicate FreeOfSepHead(a: string, sep: string)
    requires sep != []
  {
    forall i :: 0 <= i < |a| ==> a[i] != sep[0]
  }

  /** A text in which the separator cannot start is one piece. */
  lemma {:induction false} SplitWhole(a: string, sep: string)
    requires sep != [] && FreeOfSepHead(a, sep)
    ensures Split(a, sep) == [a]
    decreases |a|
  {
    if |a| >= |sep| {
      assert a[..|sep|][0] == a[0];
      SplitWhole(a[1..], sep);
      assert [a[0]] + a[1..] == a;
    }
  }

  /** Splitting `a + sep + rest`, where the separator cannot start inside
      `a`, cuts exactly after `a`. */
  lemma {:induction false} SplitAfter(a: string, sep: string, rest: string)
    requires sep != [] && FreeOfSepHead(a, sep)
    ensures Split(a + sep + rest, sep) == [a] + Split(rest, sep)
    decreases |a|
  {
    var s := a + sep + rest;
    if |a| == 0 {
      assert s[..|sep|] == sep;
      assert s[|sep|..] == rest;
    } else {
      assert s[..|sep|][0] == a[0];
      assert s[1..] == a[1..] + sep + rest;
      SplitAfter(a[1..], sep, rest);
      assert [a[0]] + a[1..] == a;
    }
  }

  /** Splitting gives a single piece exactly when the separator occurs
      nowhere in the text. */
  lemma {:induction false} SplitOnePiece(s: string, sep: string)
    requires sep != []
    ensures |Split(s, sep)| == 1 <==> !Contains(s, sep)
    decreases |s|
  {
    if |s| < |sep| {
      IndexOfFirst(s, sep);
    } else if s[..|sep|] == sep {
      assert OccursAt(s, sep, 0);
    } else {
      assert !OccursAt(s, sep, 0);
      SplitOnePiece(s[1..], sep);
    }
  }

  // ---------------------------------------------------------- stripping

  /** s.lstrip(cs): drop leading characters that belong to the set `cs`. */
  function LStrip(s: string, cs: set<char>): (r: string)
    ensures |r| <= |s| && r == s[|s| - |r|..]
    ensures r == [] || r[0] !in cs
    ensures forall i :: 0 <= i < |s| - |r| ==> s[i] in cs
  {
    if |s| > 0 && s[0] in cs then LStrip(s[1..], cs) else s
  }

  /** s.rstrip(cs): drop trailing characters that belong to the set `cs`
      (a set of characters, not a suffix). */
  function RStrip(s: string, cs: set<char>): (r: string)
    ensures r <= s
    ensures r == [] || r[|r| - 1] !in cs
    ensures forall i :: |r| <= i < |s| ==> s[i] in cs
  {
    if |s| > 0 && s[|s| - 1] in cs then RStrip(s[..|s| - 1], cs) else s
  }

  /** s.strip(cs) */
  function Strip(s: string, cs: set<char>): string {
    RStrip(LStrip(s, cs), cs)
  }

  lemma StripPadded(x: string, cs: set<char>, pad: string)
    requires forall i :: 0 <= i < |pad| ==> pad[i] in cs
    requires x == [] || (x[0] !in cs && x[|x| - 1] !in cs)
    ensures Strip(pad + x, cs) == x
    decreases |pad|
  {
    if |pad| > 0 {
      assert (pad + x)[1..] == pad[1..] + x;
      StripPadded(x, cs, pad[1..]);
    } else {
      assert pad + x == x;
      if x != [] {
        assert LStrip(x, cs) == x;
      }
    }
  }

  const Whitespace: set<char> := {' ', '\t', '\n', '\r', 11 as char, 12 as char}

  // ----------------------------------------------------------- replacing

  /** s.replace(c, t) for a one-character pattern */
  function Replace(s: string, c: char, t: string): string
    decreases |s|
  {
    if s == [] then [] else (if s[0] == c then t else [s[0]]) + Replace(s[1..], c, t)
  }

  /** s.replace(c, "") */
  function Remove(s: string, c: char): (r: string)
    ensures |r| <= |s|
    ensures c !in r
    ensures c !in s ==> r == s
    decreases |s|
  {
    if s == [] then [] else (if s[0] == c then [] else [s[0]]) + Remove(s[1..], c)
  }

  lemma {:induction false} RemoveConcat(a: string, b: string, c: char)
    ensures Remove(a + b, c) == Remove(a, c) + Remove(b, c)
    decreases |a|
  {
    if a != [] {
      assert (a + b)[0] == a[0] && (a + b)[1..] == a[1..] + b;
      RemoveConcat(a[1..], b, c);
      var head := if a[0] == c then [] else [a[0]];
      assert Remove(a + b, c) == head + Remove(a[1..] + b, c);
      AppendAssoc(head, Remove(a[1..], c), Remove(b, c));
    } else {
      assert a + b == b;
    }
  }

  lemma {:induction false} RemoveKeepsLast(s: string, c: char)
    requires s != [] && s[|s| - 1] != c
    ensures Remove(s, c) != [] && Remove(s, c)[|Remove(s, c)| - 1] == s[|s| - 1]
  {
    var init, last := s[..|s| - 1], s[|s| - 1];
    assert s == init + [last];
    RemoveConcat(init, [last], c);
    assert Remove([last], c) == [last];
  }

  lemma {:induction false} ReplaceConcat(a: string, b: string, c: char, t: string)
    ensures Replace(a + b, c, t) == Replace(a, c, t) + Replace(b, c, t)
    decreases |a|
  {
    if a != [] {
      assert (a + b)[1..] == a[1..] + b;
      ReplaceConcat(a[1..], b, c, t);
    } else {
      assert a + b == b;
    }
  }

  // ----------------------------------------------------------- reversing

  /** s[::-1] */
  function Reverse<T>(s: seq<T>): (r: seq<T>)
    ensures |r| == |s|
  {
    if s == [] then [] else Reverse(s[1..]) + [s[0]]
  }

  lemma {:induction false} ReverseAt<T>(s: seq<T>, k: nat)
    requires k < |s|
    ensures Reverse(s)[k] == s[|s| - 1 - k]
  {
    if k < |s| - 1 {
      ReverseAt(s[1..], k);
    }
  }

  lemma ReverseTwice<T>(s: seq<T>)
    ensures Reverse(Reverse(s)) == s
  {
    forall k | 0 <= k < |s|
      ensures Reverse(Reverse(s))[k] == s[k]
    {
      ReverseAt(Reverse(s), k);
      ReverseAt(s, |s| - 1 - k);
    }
  }

  // -------------------------------------------------- decimal digits

  predicate IsDigit(c: char) {
    '0' <= c <= '9'
  }

  predicate AllDigits(s: string) {
    forall i :: 0 <= i < |s| ==> IsDigit(s[i])
  }

  function DigitValue(c: char): nat
    requires IsDigit(c)
  {
    c as int - '0' as int
  }

  function DigitChar(d: nat): (c: char)
    requires d < 10
    ensures IsDigit(c) && DigitValue(c) == d
  {
    ('0' as int + d) as char
  }

  /** The value of a run of decimal digits. */
  function DigitsValue(ds: string): nat
    requires AllDigits(ds)
  {
    if ds == [] then 0 else DigitsValue(ds[..|ds| - 1]) * 10 + DigitValue(ds[|ds| - 1])
  }

  /** str(n) for a natural number */
  function NatToString(n: nat): (r: string)
    ensures |r| >= 1 && AllDigits(r)
  {
    if n < 10 then [DigitChar(n)] else NatToString(n / 10) + [DigitChar(n % 10)]
  }

  lemma {:induction false} NatToStringValue(n: nat)
    ensures DigitsValue(NatToString(n)) == n
  {
    if n >= 10 {
      var s := NatToString(n);
      NatToStringValue(n / 10);
      assert s[..|s| - 1] == NatToString(n / 10);
    }
  }

  /** str() of an int: a minus sign before the digits of a negative. */
  function IntToString(i: int): (r: string)
    ensures i >= 0 ==> r == NatToString(i)
    ensures i < 0 ==> r == "-" + NatToString(-i)
  {
    if i < 0 then "-" + NatToString(-i) else NatToString(i)
  }

  function Repeat(c: char, k: nat): (r: string)
    ensures |r| == k && forall i :: 0 <= i < k ==> r[i] == c
  {
    if k == 0 then [] else [c] + Repeat(c, k - 1)
  }

  /** [x] * n */
  function Copies<T>(n: nat, x: T): (r: seq<T>)
    ensures |r| == n && forall i :: 0 <= i < n ==> r[i] == x
  {
    if n == 0 then [] else Copies(n - 1, x) + [x]
  }

  /** f"{n:0w}": the decimal digits of n, zero-padded on the left to width w. */
  function PadNat(n: nat, w: nat): (r: string)
    ensures |r| == if |NatToString(n)| < w then w else |NatToString(n)|
    ensures AllDigits(r)
  {
    var d := NatToString(n);
    (if |d| < w then Repeat('0', w - |d|) else "") + d
  }

  function Pow10(k: nat): (p: nat)
    ensures p >= 1
  {
    if k == 0 then 1 else 10 * Pow10(k - 1)
  }

  /** int(s): optional surrounding whitespace, an optional sign and at least
      one decimal digit. */
  function ParseInt(s: string): Option<int> {
    var t := Strip(s, Whitespace);
    if |t| > 0 && (t[0] == '+' || t[0] == '-') then
      if |t| > 1 && AllDigits(t[1..]) then
        Some(if t[0] == '-' then 0 - DigitsValue(t[1..]) else DigitsValue(t[1..]) as int)
      else None
    else if |t| > 0 && AllDigits(t) then Some(DigitsValue(t))
    else None
  }

  /** The value of an unsigned decimal numeral with an optional point. */
  function DecimalValue(b: string): Option<real> {
    var parts := Split(b, ".");
    if |parts| > 2 then None
    else
      var whole := parts[0];
      var frac := if |parts| == 2 then parts[1] else "";
      if AllDigits(whole) && AllDigits(frac) && |whole| + |frac| > 0 then
        Some(DigitsValue(whole) as real + DigitsValue(frac) as real / Pow10(|frac|) as real)
      else None
  }

  /** float(s) for plain decimal numerals: optional surrounding whitespace,
      an optional sign, digits with an optional point. */
  function ParseFloat(s: string): Option<real> {
    var t := Strip(s, Whitespace);
    if |t| > 0 && (t[0] == '+' || t[0] == '-') then
      match DecimalValue(t[1..])
      case None => None
      case Some(x) => Some(if t[0] == '-' then -x else x)
    else DecimalValue(t)
  }

  /** float() and int() of a single digit give its value. */
  lemma ParseDigit(c: char)
    requires IsDigit(c)
    ensures ParseFloat([c]) == Some(DigitValue(c) as real)
    ensures ParseInt([c]) == Some(DigitValue(c) as int)
  {
    StripPadded([c], Whitespace, "");
    assert "" + [c] == [c];
    SplitWhole([c], ".");
    assert [c][..0] == [];
    assert DigitsValue([c]) == DigitValue(c);
  }

  lemma DecimalRejectsLetterEnd(b: string)
    requires b != [] && !IsDigit(b[|b| - 1]) && b[|b| - 1] != '.'
    ensures DecimalValue(b).None?
  {
    var parts := Split(b, ".");
    JoinSplit(b, ".");
    if |parts| == 1 {
      assert parts[0] == b;
    } else if |parts| == 2 {
      assert Join(parts, ".") == parts[0] + "." + parts[1];
      if parts[1] != [] {
        assert parts[1][|parts[1]| - 1] == b[|b| - 1];
      }
    }
  }

  lemma StripKeepsLast(s: string, cs: set<char>)
    requires s != [] && s[|s| - 1] !in cs
    ensures Strip(s, cs) != [] && Strip(s, cs)[|Strip(s, cs)| - 1] == s[|s| - 1]
  {
    var l := LStrip(s, cs);
    assert l[|l| - 1] == s[|s| - 1];
  }

  /** float() rejects a text whose last character is a letter: a trailing
      unit such as "300K" is not a number. */
  lemma ParseFloatRejectsLetterEnd(s: string)
    requires s != [] && ('A' <= s[|s| - 1] <= 'Z' || 'a' <= s[|s| - 1] <= 'z')
    ensures ParseFloat(s).None?
  {
    StripKeepsLast(s, Whitespace);
    var t := Strip(s, Whitespace);
    if |t| > 0 && (t[0] == '+' || t[0] == '-') {
      if |t| > 1 {
        DecimalRejectsLetterEnd(t[1..]);
      }
    } else {
      DecimalRejectsLetterEnd(t);
    }
  }

  /** float() of the decimal digits of a natural number is that number. */
  lemma ParseFloatNat(n: nat)
    ensures ParseFloat(NatToString(n)) == Some(n as real)
  {
    ParseFloatDigits(NatToString(n));
    NatToStringValue(n);
  }

  /** float() of a text of decimal digits is their value. */
  lemma ParseFloatDigits(t: string)
    requires t != [] && AllDigits(t)
    ensures ParseFloat(t) == Some(DigitsValue(t) as real)
  {
    StripDigits(t);
    assert IsDigit(t[0]);
    DecimalOfDigits(t);
  }

  lemma StripDigits(t: string)
    requires t != [] && AllDigits(t)
    ensures Strip(t, Whitespace) == t
  {
    assert IsDigit(t[0]) && IsDigit(t[|t| - 1]);
    StripPadded(t, Whitespace, "");
    assert "" + t == t;
  }

  lemma DecimalOfDigits(t: string)
    requires t != [] && AllDigits(t)
    ensures DecimalValue(t) == Some(DigitsValue(t) as real)
  {
    assert FreeOfSepHead(t, ".") by {
      forall i | 0 <= i < |t| ensures t[i] != '.' {
        assert IsDigit(t[i]);
      }
    }
    SplitWhole(t, ".");
    assert DigitsValue("") == 0;
    assert Pow10(0) == 1;
  }

  /** float("") raises. */
  lemma ParseFloatEmpty()
    ensures ParseFloat("").None?
  {
    assert Strip("", Whitespace) == "";
    assert Split("", ".") == [""];
  }

  // ------------------------------------------------- Python indexing

  /** s[i] with Python's negative indices; None where Python raises. */
  function PyIndex<T>(s: seq<T>, i: int): (r: Option<T>)
    ensures r.Some? <==> -|s| <= i < |s|
  {
    if 0 <= i < |s| then Some(s[i])
    else if -|s| <= i < 0 then Some(s[|s| + i])
    else None
  }

  function SliceBound(i: int, n: nat): (b: nat)
    ensures b <= n
  {
    if i < 0 then (if i + n < 0 then 0 else i + n) else if i > n then n else i
  }

  /** s[a:b] with Python's clamping and negative bounds. */
  function PySlice<T>(s: seq<T>, a: int, b: int): (r: seq<T>)
    ensures |r| <= |s|
  {
    var lo, hi := SliceBound(a, |s|), SliceBound(b, |s|);
    if lo < hi then s[lo..hi] else []
  }

  // ------------------------------------------------- more stripping

  /** Characters of the set appended after a text are all stripped again. */
  lemma {:induction false} RStripAppend(a: string, b: string, cs: set<char>)
    requires forall i :: 0 <= i < |b| ==> b[i] in cs
    ensures RStrip(a + b, cs) == RStrip(a, cs)
    decreases |b|
  {
    if b != [] {
      assert (a + b)[..|a + b| - 1] == a + b[..|b| - 1];
      RStripAppend(a, b[..|b| - 1], cs);
    } else {
      assert a + b == a;
    }
  }

  /** A text whose last character is kept is its own right strip. */
  lemma RStripKeeps(a: string, cs: set<char>)
    requires a == [] || a[|a| - 1] !in cs
    ensures RStrip(a, cs) == a
  {
  }

  lemma LStripKeeps(a: string, cs: set<char>)
    requires a == [] || a[0] !in cs
    ensures LStrip(a, cs) == a
  {
  }

  // ------------------------------------------------- paths

  /** os.path.join(a, b) of a POSIX system, whose separator is '/'. */
  function PathJoin(a: string, b: string): (r: string)
    ensures |b| > 0 && b[0] == '/' ==> r == b
    ensures (|b| == 0 || b[0] != '/') && (a == [] || a[|a| - 1] == '/') ==> r == a + b
    ensures (|b| == 0 || b[0] != '/') && a != [] && a[|a| - 1] != '/' ==> r == a + "/" + b
  {
    if |b| > 0 && b[0] == '/' then b
    else if a == [] || a[|a| - 1] == '/' then a + b
    else a + "/" + b
  }

  /** Joining all pieces but the last, then the last after the separator,
      is joining all pieces. */
  lemma {:induction false} JoinLast(parts: seq<string>, sep: string)
    requires |parts| >= 2
    ensures Join(parts[..|parts| - 1], sep) + sep + parts[|parts| - 1] == Join(parts, sep)
    decreases |parts|
  {
    if |parts| > 2 {
      JoinLast(parts[1..], sep);
      assert parts[1..][..|parts| - 2] == parts[..|parts| - 1][1..];
    }
  }

  /** `sep.join(path.split(sep)[:-1])` and `path.split(sep)[-1]`: the text
      before the last separator and the text after it. */
  function SplitLast(path: string, sep: string): (r: (string, string))
    requires sep != []
  {
    var parts := Split(path, sep);
    (Join(parts[..|parts| - 1], sep), parts[|parts| - 1])
  }

  /** Without the separator the whole path is the last piece and the front is
      empty; with it, front, separator and last piece give the path back, and
      the last piece holds no separator. */
  lemma SplitLastParts(path: string, sep: string)
    requires sep != []
    ensures !Contains(path, sep) ==> SplitLast(path, sep) == ("", path)
    ensures Contains(path, sep) ==>
      SplitLast(path, sep).0 + sep + SplitLast(path, sep).1 == path
  {
    var parts := Split(path, sep);
    SplitOnePiece(path, sep);
    JoinSplit(path, sep);
    if |parts| >= 2 {
      JoinLast(parts, sep);
    } else {
      assert parts[..0] == [];
    }
  }
}
