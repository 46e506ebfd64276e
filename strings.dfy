/** The JavaScript string built-ins the application relies on, written out as
    functions over `seq<char>`: `includes`, `startsWith`, `toLowerCase`,
    `toUpperCase`, `trim`, `split`, `padStart`, `parseInt`, and the leftmost-match
    search that an unanchored regular expression performs. Case mapping covers
    ASCII and Latin-1, which holds every station name and line name the
    application compares. */
module Strings {
  import opened Wrappers

  /** JavaScript's WhiteSpace and LineTerminator code points: the class `\s` of
      a regular expression, and what `String.prototype.trim` removes. */
  predicate IsSpace(c: char) {
    var n := c as int;
    n == 0x09 || n == 0x0A || n == 0x0B || n == 0x0C || n == 0x0D || n == 0x20
    || n == 0xA0 || n == 0x1680 || (0x2000 <= n <= 0x200A) || n == 0x2028
    || n == 0x2029 || n == 0x202F || n == 0x205F || n == 0x3000 || n == 0xFEFF
  }

  /** The class `\d`. */
  predicate IsDigit(c: char) {
    '0' <= c <= '9'
  }

  /** `s.startsWith(p)` */
  predicate StartsWith(s: string, p: string) {
    |p| <= |s| && s[..|p|] == p
  }

  /** `s.endsWith(p)` */
  predicate EndsWith(s: string, p: string) {
    |p| <= |s| && s[|s| - |p|..] == p
  }

  /** `s.includes(t)`: t occurs somewhere in s. */
  predicate Contains(s: string, t: string)
    decreases |s|
  {
    StartsWith(s, t) || (|s| > 0 && Contains(s[1..], t))
  }

  /** Contains means what it says: an occurrence at some position. */
  lemma {:induction false} ContainsIffOccurs(s: string, t: string)
    ensures Contains(s, t) <==> exists i :: 0 <= i <= |s| - |t| && s[i..][..|t|] == t
  {
    if StartsWith(s, t) {
      assert s[0..][..|t|] == t;
    } else if |s| > 0 {
      ContainsIffOccurs(s[1..], t);
      if Contains(s[1..], t) {
        var i :| 0 <= i <= |s[1..]| - |t| && s[1..][i..][..|t|] == t;
        assert s[i + 1..] == s[1..][i..];
      }
      if exists i :: 0 <= i <= |s| - |t| && s[i..][..|t|] == t {
        var i :| 0 <= i <= |s| - |t| && s[i..][..|t|] == t;
        assert i != 0;
        assert s[1..][i - 1..] == s[i..];
      }
    }
  }

  /** Every string contains what it starts with, and a string contains its
      own suffixes' occurrences. */
  lemma {:induction false} ContainsSuffix(s: string, k: nat, t: string)
    requires k <= |s|
    requires Contains(s[k..], t)
    ensures Contains(s, t)
  {
    if k > 0 {
      assert s[1..][k - 1..] == s[k..];
      ContainsSuffix(s[1..], k - 1, t);
    }
  }

  /** The leftmost position i >= from with P(s[i..]): how an unanchored regular
      expression finds its match. */
  function FindFrom(s: string, P: string -> bool, from: nat): (r: Option<nat>)
    requires from <= |s|
    decreases |s| - from
    ensures r.Some? ==> from <= r.value <= |s| && P(s[r.value..])
    ensures r.Some? ==> forall j :: from <= j < r.value ==> !P(s[j..])
    ensures r.None? ==> forall j :: from <= j <= |s| ==> !P(s[j..])
  {
    if P(s[from..]) then Some(from)
    else if from == |s| then None
    else FindFrom(s, P, from + 1)
  }

  /** `s.indexOf(t)` as an option. */
  function IndexOf(s: string, t: string): (r: Option<nat>)
    ensures r.Some? ==> r.value + |t| <= |s| && s[r.value..r.value + |t|] == t
    ensures r.Some? ==> forall j :: 0 <= j < r.value ==> !StartsWith(s[j..], t)
    ensures r.None? ==> forall j :: 0 <= j <= |s| ==> !StartsWith(s[j..], t)
  {
    FindFrom(s, u => StartsWith(u, t), 0)
  }

  /** The longest prefix of s whose characters all satisfy P. */
  function TakeWhile(s: string, P: char -> bool): (r: string)
    ensures |r| <= |s| && r == s[..|r|]
    ensures forall i :: 0 <= i < |r| ==> P(r[i])
    ensures |r| < |s| ==> !P(s[|r|])
  {
    if s == [] || !P(s[0]) then [] else [s[0]] + TakeWhile(s[1..], P)
  }

  /** s without its longest prefix of characters satisfying P. */
  function DropWhile(s: string, P: char -> bool): (r: string)
    ensures |r| <= |s| && r == s[|s| - |r|..]
    ensures forall i :: 0 <= i < |s| - |r| ==> P(s[i])
    ensures r != [] ==> !P(r[0])
  {
    if s == [] || !P(s[0]) then s else DropWhile(s[1..], P)
  }

  /** s without its longest suffix of characters satisfying P. */
  function DropWhileEnd(s: string, P: char -> bool): (r: string)
    ensures |r| <= |s| && r == s[..|r|]
    ensures forall i :: |r| <= i < |s| ==> P(s[i])
    ensures r != [] ==> !P(r[|r| - 1])
  {
    if s == [] || !P(s[|s| - 1]) then s else DropWhileEnd(s[..|s| - 1], P)
  }

  /** `s.trim()` */
  function Trim(s: string): (r: string)
    ensures r == [] <==> forall i :: 0 <= i < |s| ==> IsSpace(s[i])
    ensures r != [] ==> !IsSpace(r[0]) && !IsSpace(r[|r| - 1])
  {
    var d := DropWhile(s, IsSpace);
    var r := DropWhileEnd(d, IsSpace);
    r
  }

  /** Trimming twice is trimming once. */
  lemma TrimIdempotent(s: string)
    ensures Trim(Trim(s)) == Trim(s)
  {
    var r := Trim(s);
    if r != [] {
      assert DropWhile(r, IsSpace) == r;
      assert DropWhileEnd(r, IsSpace) == r;
    }
  }

  lemma {:induction false} DropWhileKeeps(s: string, P: char -> bool, c: char)
    requires forall i :: 0 <= i < |s| ==> s[i] != c
    ensures forall i :: 0 <= i < |DropWhile(s, P)| ==> DropWhile(s, P)[i] != c
  {
    if s != [] && P(s[0]) {
      assert forall i :: 0 <= i < |s[1..]| ==> s[1..][i] == s[i + 1];
      DropWhileKeeps(s[1..], P, c);
    }
  }

  lemma {:induction false} DropWhileEndKeeps(s: string, P: char -> bool, c: char)
    requires forall i :: 0 <= i < |s| ==> s[i] != c
    ensures forall i :: 0 <= i < |DropWhileEnd(s, P)| ==> DropWhileEnd(s, P)[i] != c
  {
    if s != [] && P(s[|s| - 1]) {
      DropWhileEndKeeps(s[..|s| - 1], P, c);
    }
  }

  /** Trimming adds no character: what s lacks, its trimmed form lacks too. */
  lemma TrimKeeps(s: string, c: char)
    requires forall i :: 0 <= i < |s| ==> s[i] != c
    ensures forall i :: 0 <= i < |Trim(s)| ==> Trim(s)[i] != c
  {
    DropWhileKeeps(s, IsSpace, c);
    DropWhileEndKeeps(DropWhile(s, IsSpace), IsSpace, c);
  }

  /** `s.toLowerCase()` on one character: ASCII and Latin-1 capitals. */
  function LowerChar(c: char): char {
    if 'A' <= c <= 'Z' || (0xC0 <= c as int <= 0xDE && c as int != 0xD7) then (c as int + 32) as char else c
  }

  /** `s.toLowerCase()` */
  function Lower(s: string): (r: string)
    ensures |r| == |s|
  {
    if s == [] then [] else [LowerChar(s[0])] + Lower(s[1..])
  }

  /** Lowering a string twice is lowering it once. */
  lemma {:induction false} LowerIdempotent(s: string)
    ensures Lower(Lower(s)) == Lower(s)
  {
    if s != [] {
      LowerIdempotent(s[1..]);
      assert Lower(s)[1..] == Lower(s[1..]);
    }
  }

  /** Lowering distributes over concatenation. */
  lemma {:induction false} LowerConcat(a: string, b: string)
    ensures Lower(a + b) == Lower(a) + Lower(b)
  {
    if a != [] {
      assert (a + b)[1..] == a[1..] + b;
      LowerConcat(a[1..], b);
    } else {
      assert a + b == b;
    }
  }

  /** `s.toUpperCase()` on one character; `ß` becomes `SS`. */
  function UpperChar(c: char): string {
    var n := c as int;
    if 'a' <= c <= 'z' || (0xE0 <= n <= 0xFE && n != 0xF7) then [(n - 32) as char]
    else if n == 0xFF then [0x178 as char]
    else if n == 0xB5 then [0x39C as char]
    else if n == 0xDF then "SS"
    else [c]
  }

  /** `s.toUpperCase()` */
  function Upper(s: string): string {
    if s == [] then [] else UpperChar(s[0]) + Upper(s[1..])
  }

  /** `s.replace(/a/g, b)` for one character a. */
  function ReplaceChar(s: string, a: char, b: char): (r: string)
    ensures |r| == |s|
    ensures forall i :: 0 <= i < |s| ==> r[i] == (if s[i] == a then b else s[i])
  {
    if s == [] then [] else [if s[0] == a then b else s[0]] + ReplaceChar(s[1..], a, b)
  }

  /** `s.split(sep)` for a one-character separator: the pieces between the
      separators, always at least one. */
  function Split(s: string, sep: char): (r: seq<string>)
    ensures |r| >= 1
    ensures forall k, i :: 0 <= k < |r| && 0 <= i < |r[k]| ==> r[k][i] != sep
  {
    if s == [] then [""]
    else
      var rest := Split(s[1..], sep);
      if s[0] == sep then [""] + rest else [[s[0]] + rest[0]] + rest[1..]
  }

  /** `parts.join(sep)` */
  function Join(parts: seq<string>, sep: string): string {
    if parts == [] then "" else if |parts| == 1 then parts[0] else parts[0] + sep + Join(parts[1..], sep)
  }

  /** Splitting then joining gives the string back. */
  lemma {:induction false} JoinSplit(s: string, sep: char)
    ensures Join(Split(s, sep), [sep]) == s
  {
    if s != [] {
      var rest := Split(s[1..], sep);
      JoinSplit(s[1..], sep);
      if s[0] == sep {
        assert Split(s, sep)[1..] == rest;
      } else if |rest| == 1 {
        assert Split(s, sep) == [[s[0]] + rest[0]];
      } else {
        var r := Split(s, sep);
        assert r[1..] == rest[1..];
        assert Join(rest, [sep]) == rest[0] + [sep] + Join(rest[1..], [sep]);
      }
    }
  }

  /** Splitting a string that starts with a separator-free piece. */
  lemma {:induction false} SplitPrefix(a: string, t: string, sep: char)
    requires forall i :: 0 <= i < |a| ==> a[i] != sep
    ensures Split(a + t, sep) == [a + Split(t, sep)[0]] + Split(t, sep)[1..]
  {
    if a != [] {
      SplitPrefix(a[1..], t, sep);
      assert (a + t)[1..] == a[1..] + t;
      assert (a + t)[0] == a[0];
      var rest := Split(a[1..] + t, sep);
      var st := Split(t, sep);
      assert rest == [a[1..] + st[0]] + st[1..];
      assert rest[0] == a[1..] + st[0] && rest[1..] == st[1..];
      assert [a[0]] + (a[1..] + st[0]) == a + st[0];
    } else {
      var st := Split(t, sep);
      assert a + t == t && a + st[0] == st[0];
      assert st == [st[0]] + st[1..];
    }
  }

  /** Splitting a text with more appended: the pieces before the last stay as
      they were, and the last piece is split again together with the addition. */
  lemma {:induction false} SplitAppend(t: string, c: string, sep: char)
    ensures var p := Split(t, sep);
      Split(t + c, sep) == p[..|p| - 1] + Split(p[|p| - 1] + c, sep)
  {
    var p := Split(t, sep);
    if t == [] {
      assert t + c == p[0] + c;
    } else {
      SplitAppend(t[1..], c, sep);
      SplitAppendStep(t, c, sep);
    }
  }

  lemma SplitAppendStep(t: string, c: string, sep: char)
    requires t != []
    requires var r := Split(t[1..], sep);
      Split(t[1..] + c, sep) == r[..|r| - 1] + Split(r[|r| - 1] + c, sep)
    ensures var p := Split(t, sep);
      Split(t + c, sep) == p[..|p| - 1] + Split(p[|p| - 1] + c, sep)
  {
    var u := t + c;
    ConsAppend(u, t, c);
    var p := Split(t, sep);
    var r := Split(t[1..], sep);
    var pc := Split(u, sep);
    var s := Split(t[1..] + c, sep);
    var q := Split(r[|r| - 1] + c, sep);
    SplitUnfold(u, sep);
    SplitUnfold(t, sep);
    if t[0] == sep {
      SepCase(p, r, pc, s, q);
    } else if |r| == 1 {
      var w := p[0] + c;
      assert p[0] == [t[0]] + r[0];
      ConsAppend(w, p[0], c);
      SplitUnfold(w, sep);
      SingleCase(t[0], p, r, pc, s, q, Split(w, sep));
    } else {
      OtherCase(t[0], p, r, pc, s, q);
    }
  }

  lemma ConsAppend(u: string, t: string, c: string)
    requires t != [] && u == t + c
    ensures u != [] && u[0] == t[0] && u[1..] == t[1..] + c
  {
  }

  lemma SingleCase(x: char, p: seq<string>, r: seq<string>, pc: seq<string>, s: seq<string>, q: seq<string>, pw: seq<string>)
    requires |r| == 1 && |s| >= 1 && |q| >= 1 && p == [[x] + r[0]] && pc == [[x] + s[0]] + s[1..] && s == r[..|r| - 1] + q
    requires pw == [[x] + q[0]] + q[1..]
    ensures pc == p[..|p| - 1] + pw
  {
    assert s == q;
  }

  lemma SepCase(p: seq<string>, r: seq<string>, pc: seq<string>, s: seq<string>, q: seq<string>)
    requires |r| >= 1 && p == [""] + r && pc == [""] + s && s == r[..|r| - 1] + q
    ensures pc == p[..|p| - 1] + q
  {
    assert p[..|p| - 1] == [""] + r[..|r| - 1];
  }

  lemma OtherCase(x: char, p: seq<string>, r: seq<string>, pc: seq<string>, s: seq<string>, q: seq<string>)
    requires |r| >= 2 && |s| >= 1 && p == [[x] + r[0]] + r[1..] && pc == [[x] + s[0]] + s[1..] && s == r[..|r| - 1] + q
    ensures pc == p[..|p| - 1] + q
  {
    assert s[0] == r[0] && s[1..] == r[1..|r| - 1] + q;
    assert p[..|p| - 1] == [[x] + r[0]] + r[1..|r| - 1];
  }

  /** One step of the definition of Split. */
  lemma SplitUnfold(u: string, sep: char)
    requires u != []
    ensures var r := Split(u[1..], sep);
      Split(u, sep) == if u[0] == sep then [""] + r else [[u[0]] + r[0]] + r[1..]
  {
  }

  /** Joining separator-free pieces and splitting again gives the pieces back. */
  lemma {:induction false} SplitJoin(parts: seq<string>, sep: char)
    requires |parts| >= 1
    requires forall k, i :: 0 <= k < |parts| && 0 <= i < |parts[k]| ==> parts[k][i] != sep
    ensures Split(Join(parts, [sep]), sep) == parts
  {
    if |parts| == 1 {
      SplitPrefix(parts[0], "", sep);
      assert parts[0] + "" == parts[0];
    } else {
      var rest := parts[1..];
      SplitJoin(rest, sep);
      var j := Join(rest, [sep]);
      assert Join(parts, [sep]) == parts[0] + ([sep] + j);
      SplitPrefix(parts[0], [sep] + j, sep);
      assert ([sep] + j)[1..] == j;
      assert Split([sep] + j, sep) == [""] + Split(j, sep);
      assert ([""] + Split(j, sep))[0] == "" && ([""] + Split(j, sep))[1..] == rest;
      assert parts[0] + "" == parts[0];
      assert parts == [parts[0]] + rest;
    }
  }

  /** The concatenation of a sequence of strings. */
  function Concat(ss: seq<string>): string {
    if ss == [] then "" else Concat(ss[..|ss| - 1]) + ss[|ss| - 1]
  }

  /** `String(s).padStart(n, c)` */
  function PadStart(s: string, n: nat, c: char): (r: string)
    ensures |r| == if |s| >= n then |s| else n
    ensures EndsWith(r, s)
    ensures forall i :: 0 <= i < |r| - |s| ==> r[i] == c
  {
    if |s| >= n then s else seq(n - |s|, _ => c) + s
  }

  /** The value of a string of decimal digits. */
  function DigitsValue(d: string): nat
    requires forall i :: 0 <= i < |d| ==> IsDigit(d[i])
  {
    if d == [] then 0
    else
      var c := d[|d| - 1];
      assert IsDigit(c);
      DigitsValue(d[..|d| - 1]) * 10 + (c as int - '0' as int)
  }

  /** `parseInt(s, 10)`: skip leading white space, read an optional sign and the
      longest run of digits after it; no digits gives NaN, here `None`. */
  function ParseInt(s: string): Option<int> {
    var t := DropWhile(s, IsSpace);
    var negative := t != [] && t[0] == '-';
    var u := if t != [] && (t[0] == '-' || t[0] == '+') then t[1..] else t;
    var d := TakeWhile(u, IsDigit);
    if d == [] then None
    else
      var v: int := DigitsValue(d);
      Some(if negative then -v else v)
  }

  function DigitChar(d: nat): (c: char)
    requires d < 10
    ensures IsDigit(c) && c as int - '0' as int == d
  {
    ('0' as int + d) as char
  }

  /** `String(n)` for a natural number: its decimal digits, without leading zeros. */
  function NatText(n: nat): (r: string)
    decreases n
    ensures r != [] && forall i :: 0 <= i < |r| ==> IsDigit(r[i])
  {
    if n < 10 then [DigitChar(n)] else NatText(n / 10) + [DigitChar(n % 10)]
  }

  /** `String(n)` for an integer. */
  function IntText(n: int): string {
    if n < 0 then "-" + NatText(-n) else NatText(n)
  }

  lemma {:induction false} NatTextValue(n: nat)
    ensures DigitsValue(NatText(n)) == n
    decreases n
  {
    var r := NatText(n);
    if n >= 10 {
      NatTextValue(n / 10);
      assert r[..|r| - 1] == NatText(n / 10);
    }
  }

  lemma DropWhileNone(s: string, P: char -> bool)
    requires s != [] && !P(s[0])
    ensures DropWhile(s, P) == s
  {
  }

  lemma ParseUnsigned(d: string)
    requires d != [] && forall i :: 0 <= i < |d| ==> IsDigit(d[i])
    ensures ParseInt(d) == Some(DigitsValue(d) as int)
  {
    assert d + [] == d;
    ParseIntDigits(d, []);
  }

  lemma ParseNegative(t: string)
    requires |t| >= 2 && t[0] == '-' && forall i :: 1 <= i < |t| ==> IsDigit(t[i])
    ensures ParseInt(t) == Some(-(DigitsValue(t[1..]) as int))
  {
    var d := t[1..];
    TakeWhileDigits(d, []);
    assert d + [] == d;
    DropWhileNone(t, IsSpace);
  }

  /** Reading a number's text back gives the number. */
  lemma IntTextParses(n: int)
    ensures ParseInt(IntText(n)) == Some(n)
  {
    var m: nat := if n < 0 then -n else n;
    NatTextValue(m);
    ParseUnsigned(NatText(m));
    if n < 0 {
      var t := IntText(n);
      assert t[1..] == NatText(m);
      ParseNegative(t);
    }
  }

  /** A run of digits followed by anything that is not a digit parses to the
      run's value: `parseInt("50abc") === 50`. */
  lemma {:induction false} ParseIntDigits(d: string, rest: string)
    requires d != [] && forall i :: 0 <= i < |d| ==> IsDigit(d[i])
    requires rest == [] || !IsDigit(rest[0])
    ensures ParseInt(d + rest) == Some(DigitsValue(d))
  {
    assert DropWhile(d + rest, IsSpace) == d + rest by {
      assert !IsSpace((d + rest)[0]);
    }
    TakeWhileDigits(d, rest);
  }

  lemma {:induction false} TakeWhileDigits(d: string, rest: string)
    requires forall i :: 0 <= i < |d| ==> IsDigit(d[i])
    requires rest == [] || !IsDigit(rest[0])
    ensures TakeWhile(d + rest, IsDigit) == d
  {
    if d == [] {
      assert d + rest == rest;
    } else {
      assert (d + rest)[1..] == d[1..] + rest;
      TakeWhileDigits(d[1..], rest);
    }
  }

  /** Text that starts with neither white space, a sign nor a digit is NaN. */
  lemma ParseIntNotANumber(s: string)
    requires s != [] && !IsSpace(s[0]) && !IsDigit(s[0]) && s[0] != '-' && s[0] != '+'
    ensures ParseInt(s) == None
  {
  }
}
