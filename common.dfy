/** Values and string primitives shared by the router, the SQL agent and the hybrid pipeline.
    Everything here mirrors a Python built-in the agents rely on: truthiness, `str()`,
    `str.strip()`, `str.upper()`, `str.split("\n")`, `"\n".join(...)` and the `in` substring test. */
module Common {

  datatype Option<+T> = None | Some(value: T)

  /** An operation that either returns a value or raises (the message is `str(e)`). */
  datatype Result<+T> = Ok(value: T) | Err(error: string)

  /** A Python value as `json.loads` or the database driver hands it over. */
  datatype Value =
    | Null
    | Bool(b: bool)
    | Int(i: int)
    | Real(r: real)
    | Str(s: string)
    | Arr(items: seq<Value>)
    | Obj(fields: map<string, Value>)

  /** A dictionary with string keys, such as a filter record or a database row. */
  type Dict = map<string, Value>

  /** `d.get(k)`: the value under `k`, or None when the key is missing. */
  function Get(d: Dict, k: string): (v: Value)
    ensures k !in d ==> v == Null
    ensures k in d ==> v == d[k]
  {
    if k in d then d[k] else Null
  }

  /** Python truthiness: None, False, 0, 0.0, "" and empty containers are false. */
  predicate Truthy(v: Value) {
    match v
    case Null => false
    case Bool(b) => b
    case Int(i) => i != 0
    case Real(r) => r != 0.0
    case Str(s) => s != ""
    case Arr(items) => |items| > 0
    case Obj(fields) => |fields| > 0
  }

  /** `str(v)` (and `f"{v}"`): exact for None, booleans, integers and strings; floats and
      containers are rendered by `show`, which stands for Python's repr of them. */
  function Render(show: Value -> string, v: Value): (r: string)
    ensures v.Str? ==> r == v.s
    ensures v.Null? ==> r == "None"
  {
    match v
    case Null => "None"
    case Bool(b) => if b then "True" else "False"
    case Int(i) => IntToString(i)
    case Str(s) => s
    case _ => show(v)
  }

  function Digit(d: nat): (c: char)
    requires d < 10
    ensures '0' <= c <= '9' && c as int - '0' as int == d
  {
    ('0' as int + d) as char
  }

  /** The number a string of decimal digits denotes. */
  function DigitsValue(s: string): nat
    requires forall i :: 0 <= i < |s| ==> '0' <= s[i] <= '9'
  {
    if s == [] then 0 else 10 * DigitsValue(s[..|s| - 1]) + (s[|s| - 1] as int - '0' as int)
  }

  /** Decimal digits of a natural number, without leading zeros. */
  function NatToString(n: nat): (r: string)
    ensures |r| >= 1
    ensures forall i :: 0 <= i < |r| ==> '0' <= r[i] <= '9'
    ensures n > 0 ==> r[0] != '0'
  {
    if n < 10 then [Digit(n)] else NatToString(n / 10) + [Digit(n % 10)]
  }

  /** The digits denote the number they render. */
  lemma {:induction false} NatToStringValue(n: nat)
    ensures DigitsValue(NatToString(n)) == n
  {
    if n >= 10 {
      var front := NatToString(n / 10);
      var r := NatToString(n);
      assert r[..|r| - 1] == front;
      NatToStringValue(n / 10);
    }
  }

  /** `str(i)` for a Python int. */
  function IntToString(i: int): string {
    if i < 0 then "-" + NatToString(-i) else NatToString(i)
  }

  // ---------------------------------------------------------------- prefixes and substrings

  predicate StartsWith(s: string, prefix: string) {
    |prefix| <= |s| && s[..|prefix|] == prefix
  }

  /** Python's `w in s` for strings: `w` occurs in `s` at some position. */
  predicate Contains(s: string, w: string)
    decreases |s|
  {
    StartsWith(s, w) || (|s| > 0 && Contains(s[1..], w))
  }

  lemma StartsWithSelf(s: string)
    ensures StartsWith(s, s)
  {
    assert s[..|s|] == s;
  }

  /** Appending to a text keeps every prefix it had. */
  lemma StartsWithExtend(s: string, prefix: string, t: string)
    requires StartsWith(s, prefix)
    ensures StartsWith(s + t, prefix)
  {
    assert (s + t)[..|prefix|] == s[..|prefix|];
  }

  /** `Contains` agrees with the positional reading of a substring test. */
  lemma {:induction false} ContainsAt(s: string, w: string, i: nat)
    requires i + |w| <= |s| && s[i..i + |w|] == w
    ensures Contains(s, w)
    decreases i
  {
    if i > 0 {
      assert s[1..][i - 1..i - 1 + |w|] == s[i..i + |w|];
      ContainsAt(s[1..], w, i - 1);
    }
  }

  /** The middle of a concatenation occurs in it. */
  lemma ContainsPart(a: string, b: string, c: string)
    ensures Contains(a + b + c, b)
  {
    assert (a + b + c)[|a|..|a| + |b|] == b;
    ContainsAt(a + b + c, b, |a|);
  }

  /** The texts of a list, joined end to end in list order. */
  function Concat(parts: seq<string>): string {
    if parts == [] then "" else Concat(parts[..|parts| - 1]) + parts[|parts| - 1]
  }

  /** Joining a longer prefix of a list extends the text of a shorter one. */
  lemma {:induction false} ConcatPrefix(parts: seq<string>, m: nat, n: nat)
    requires m <= n <= |parts|
    ensures StartsWith(Concat(parts[..n]), Concat(parts[..m]))
    decreases n
  {
    if m < n {
      ConcatPrefix(parts, m, n - 1);
      assert parts[..n][..n - 1] == parts[..n - 1];
      StartsWithExtend(Concat(parts[..n - 1]), Concat(parts[..m]), parts[n - 1]);
    } else {
      StartsWithSelf(Concat(parts[..m]));
    }
  }

  /** When no part is empty, joining a longer prefix of the list gives a longer text. */
  lemma {:induction false} ConcatGrows(parts: seq<string>, m: nat, n: nat)
    requires m < n <= |parts|
    requires forall i :: 0 <= i < |parts| ==> |parts[i]| > 0
    ensures |Concat(parts[..m])| < |Concat(parts[..n])|
    decreases n
  {
    assert parts[..n][..n - 1] == parts[..n - 1];
    if m < n - 1 {
      ConcatGrows(parts, m, n - 1);
    }
  }

  // ---------------------------------------------------------------- whitespace and case

  lemma ConcatAssoc<T>(a: seq<T>, b: seq<T>, c: seq<T>)
    ensures (a + b) + c == a + (b + c)
  {
  }

  /** The characters `str.isspace()` accepts, which are exactly those `str.strip()` removes. */
  predicate IsSpace(c: char) {
    || c == ' '
    || '\t' <= c <= '\r'
    || '\U{1C}' <= c <= '\U{1F}'
    || c == '\U{85}' || c == '\U{A0}' || c == '\U{1680}'
    || '\U{2000}' <= c <= '\U{200A}'
    || c == '\U{2028}' || c == '\U{2029}' || c == '\U{202F}' || c == '\U{205F}' || c == '\U{3000}'
  }

  predicate AllSpace(s: string) {
    forall i :: 0 <= i < |s| ==> IsSpace(s[i])
  }

  /** `s.lstrip()`: the longest all-space prefix is removed. */
  function LStrip(s: string): (r: string)
    ensures |r| <= |s|
    ensures r != [] ==> !IsSpace(r[0])
  {
    if s != [] && IsSpace(s[0]) then LStrip(s[1..]) else s
  }

  /** What `lstrip()` removes is all space and what it keeps is the rest of the string. */
  lemma {:induction false} LStripSplits(s: string)
    ensures LStrip(s) == s[|s| - |LStrip(s)|..]
    ensures AllSpace(s[..|s| - |LStrip(s)|])
  {
    if s != [] && IsSpace(s[0]) {
      LStripSplits(s[1..]);
      var k := |s| - |LStrip(s)|;
      assert s[1..][k - 1..] == s[k..];
      forall i | 0 <= i < k ensures IsSpace(s[i]) {
        if i > 0 { assert s[1..][..k - 1][i - 1] == s[i]; }
      }
    }
  }

  /** `s.rstrip()`: the longest all-space suffix is removed. */
  function RStrip(s: string): (r: string)
    ensures |r| <= |s|
    ensures r != [] ==> !IsSpace(r[|r| - 1])
  {
    if s != [] && IsSpace(s[|s| - 1]) then RStrip(s[..|s| - 1]) else s
  }

  /** What `rstrip()` keeps is a prefix of the string and what it removes is all space. */
  lemma {:induction false} RStripSplits(s: string)
    ensures RStrip(s) == s[..|RStrip(s)|]
    ensures AllSpace(s[|RStrip(s)|..])
  {
    if s != [] && IsSpace(s[|s| - 1]) {
      var t := s[..|s| - 1];
      RStripSplits(t);
      var k := |RStrip(s)|;
      assert t[..k] == s[..k];
      forall i | k <= i < |s| ensures IsSpace(s[i]) {
        if i < |s| - 1 { assert t[k..][i - k] == s[i]; }
      }
    }
  }

  /** `s.strip()`. */
  function Strip(s: string): (r: string)
    ensures |r| <= |s|
    ensures r != [] ==> !IsSpace(r[0]) && !IsSpace(r[|r| - 1])
  {
    RStripSplits(LStrip(s));
    RStrip(LStrip(s))
  }

  /** A string that neither starts nor ends with whitespace is its own `strip()`. */
  lemma StripUnpadded(s: string)
    requires s != [] && !IsSpace(s[0]) && !IsSpace(s[|s| - 1])
    ensures Strip(s) == s
  {
  }

  lemma {:induction false} LStripAllSpace(s: string)
    requires AllSpace(s)
    ensures LStrip(s) == []
    decreases |s|
  {
    if s != [] {
      assert IsSpace(s[0]);
      LStripAllSpace(s[1..]);
    }
  }

  lemma {:induction false} LStripSpacePrefix(ws: string, t: string)
    requires AllSpace(ws)
    ensures LStrip(ws + t) == LStrip(t)
    decreases |ws|
  {
    if ws != [] {
      assert IsSpace((ws + t)[0]);
      assert (ws + t)[1..] == ws[1..] + t;
      assert AllSpace(ws[1..]) by {
        forall i | 0 <= i < |ws| - 1 ensures IsSpace(ws[1..][i]) { assert ws[1..][i] == ws[i + 1]; }
      }
      LStripSpacePrefix(ws[1..], t);
    } else {
      assert ws + t == t;
    }
  }

  lemma {:induction false} LStripAppend(s: string, t: string)
    requires LStrip(s) != []
    ensures LStrip(s + t) == LStrip(s) + t
    decreases |s|
  {
    assert s != [];
    if IsSpace(s[0]) {
      assert (s + t)[1..] == s[1..] + t;
      LStripAppend(s[1..], t);
    }
  }

  lemma {:induction false} RStripSpaceSuffix(t: string, ws: string)
    requires AllSpace(ws)
    ensures RStrip(t + ws) == RStrip(t)
    decreases |ws|
  {
    if ws != [] {
      var u := t + ws;
      assert IsSpace(u[|u| - 1]);
      assert u[..|u| - 1] == t + ws[..|ws| - 1];
      assert AllSpace(ws[..|ws| - 1]) by {
        var w := ws[..|ws| - 1];
        forall i | 0 <= i < |w| ensures IsSpace(w[i]) { assert w[i] == ws[i]; }
      }
      RStripSpaceSuffix(t, ws[..|ws| - 1]);
    } else {
      assert t + ws == t;
    }
  }

  /** Surrounding whitespace never changes what `strip()` returns. */
  lemma StripPadded(ws1: string, s: string, ws2: string)
    requires AllSpace(ws1) && AllSpace(ws2)
    ensures Strip(ws1 + s + ws2) == Strip(s)
  {
    var u := s + ws2;
    assert ws1 + s + ws2 == ws1 + u;
    LStripSpacePrefix(ws1, u);
    if LStrip(s) == [] {
      AllSpaceConcat(s, ws2);
      LStripAllSpace(u);
    } else {
      LStripAppend(s, ws2);
      RStripSpaceSuffix(LStrip(s), ws2);
    }
  }

  lemma AllSpaceConcat(s: string, t: string)
    requires LStrip(s) == [] && AllSpace(t)
    ensures AllSpace(s + t)
  {
    LStripSplits(s);
    assert s[..|s|] == s;
    forall i | 0 <= i < |s + t| ensures IsSpace((s + t)[i]) {
      if i < |s| { assert (s + t)[i] == s[i]; } else { assert (s + t)[i] == t[i - |s|]; }
    }
  }

  /** `c.upper()` for the characters whose upper case is a single ASCII letter: `a`..`z`,
      dotless `ı` (U+0131) and long `ſ` (U+017F); every other character is left as it is. */
  function UpperChar(c: char): (u: char)
    ensures IsSpace(u) <==> IsSpace(c)
    ensures 'a' <= c <= 'z' ==> u as int == c as int - 32
  {
    if 'a' <= c <= 'z' then (c as int - 32) as char
    else if c == '\U{131}' then 'I'
    else if c == '\U{17F}' then 'S'
    else c
  }

  /** `s.upper()`, character by character. */
  function Upper(s: string): (r: string)
    ensures |r| == |s|
    ensures forall i :: 0 <= i < |s| ==> r[i] == UpperChar(s[i])
  {
    seq(|s|, i requires 0 <= i < |s| => UpperChar(s[i]))
  }

  lemma UpperIdempotent(s: string)
    ensures Upper(Upper(s)) == Upper(s)
  {
  }

  lemma {:induction false} UpperLStrip(s: string)
    ensures Upper(LStrip(s)) == LStrip(Upper(s))
    decreases |s|
  {
    if s != [] {
      assert Upper(s)[1..] == Upper(s[1..]);
      UpperLStrip(s[1..]);
    }
  }

  lemma {:induction false} UpperRStrip(s: string)
    ensures Upper(RStrip(s)) == RStrip(Upper(s))
    decreases |s|
  {
    if s != [] {
      assert Upper(s)[..|s| - 1] == Upper(s[..|s| - 1]);
      UpperRStrip(s[..|s| - 1]);
    }
  }

  /** `s.strip().upper() == s.upper().strip()`: the router and the SQL validator normalise in
      opposite orders and get the same string. */
  lemma UpperStripCommute(s: string)
    ensures Upper(Strip(s)) == Strip(Upper(s))
  {
    UpperLStrip(s);
    UpperRStrip(LStrip(s));
  }

  // ---------------------------------------------------------------- lines

  /** `s.split(sep)` for a one-character separator: never empty, "" gives [""]. */
  function Split(s: string, sep: char): (r: seq<string>)
    ensures |r| >= 1
    ensures forall i :: 0 <= i < |r| ==> sep !in r[i]
  {
    if s == [] then [""]
    else
      var rest := Split(s[1..], sep);
      if s[0] == sep then [""] + rest else [[s[0]] + rest[0]] + rest[1..]
  }

  /** `sep.join(parts)`. */
  function Join(parts: seq<string>, sep: string): string {
    if |parts| == 0 then ""
    else if |parts| == 1 then parts[0]
    else parts[0] + sep + Join(parts[1..], sep)
  }

  function Last<T>(s: seq<T>): T
    requires |s| > 0
  {
    s[|s| - 1]
  }

  /** Joining the pieces of a split gives back the original string. */
  lemma {:induction false} JoinSplit(s: string, sep: char)
    ensures Join(Split(s, sep), [sep]) == s
    decreases |s|
  {
    if s != [] {
      var rest := Split(s[1..], sep);
      JoinSplit(s[1..], sep);
      if s[0] == sep {
        assert s == [sep] + s[1..];
      } else {
        var r := [[s[0]] + rest[0]] + rest[1..];
        assert r[1..] == rest[1..];
        if |rest| == 1 {
          assert s == [s[0]] + s[1..];
        } else {
          assert Join(rest, [sep]) == rest[0] + [sep] + Join(rest[1..], [sep]);
          assert s == [s[0]] + s[1..];
        }
      }
    }
  }

  /** Splitting a join of separator-free pieces gives back the pieces. */
  lemma {:induction false} SplitJoin(parts: seq<string>, sep: char)
    requires |parts| >= 1
    requires forall i :: 0 <= i < |parts| ==> sep !in parts[i]
    ensures Split(Join(parts, [sep]), sep) == parts
    decreases |parts|
  {
    if |parts| == 1 {
      SplitNoSeparator(parts[0], sep);
    } else {
      SplitJoin(parts[1..], sep);
      SplitAround(parts[0], Join(parts[1..], [sep]), sep);
      assert parts == [parts[0]] + parts[1..];
    }
  }

  lemma {:induction false} SplitNoSeparator(s: string, sep: char)
    requires sep !in s
    ensures Split(s, sep) == [s]
    decreases |s|
  {
    if s != [] {
      assert sep !in s[1..];
      SplitNoSeparator(s[1..], sep);
      assert s == [s[0]] + s[1..];
    }
  }

  /** A separator in the middle splits into the pieces of each side. */
  lemma {:induction false} SplitAround(a: string, b: string, sep: char)
    requires sep !in a
    ensures Split(a + [sep] + b, sep) == [a] + Split(b, sep)
    decreases |a|
  {
    if a == [] {
      assert a + [sep] + b == [sep] + b;
      assert ([sep] + b)[1..] == b;
    } else {
      var s := a + [sep] + b;
      assert s[0] == a[0] && s[1..] == a[1..] + [sep] + b;
      assert sep !in a[1..];
      SplitAround(a[1..], b, sep);
      assert a == [a[0]] + a[1..];
    }
  }

  /** A separator anywhere splits into the concatenation of the pieces of each side. */
  lemma {:induction false} SplitConcat(a: string, b: string, sep: char)
    ensures Split(a + [sep] + b, sep) == Split(a, sep) + Split(b, sep)
    decreases |a|
  {
    if a == [] {
      assert a + [sep] + b == [sep] + b;
      assert ([sep] + b)[1..] == b;
    } else {
      var s := a + [sep] + b;
      assert s[0] == a[0] && s[1..] == a[1..] + [sep] + b;
      SplitConcat(a[1..], b, sep);
    }
  }

  /** The line list after dropping a code fence: Python's `lines[1:-1]` when the last line
      closes the fence, otherwise `lines[1:]` (both are empty for a single line). */
  function DropFenceLines(lines: seq<string>, closed: bool): (r: seq<string>)
    ensures |lines| >= 1 && closed ==> |r| == (if |lines| >= 2 then |lines| - 2 else 0)
    ensures |lines| >= 1 && !closed ==> r == lines[1..]
    ensures closed && |lines| >= 2 ==> r == lines[1..|lines| - 1]
  {
    if |lines| == 0 then []
    else if closed then (if |lines| >= 2 then lines[1..|lines| - 1] else [])
    else lines[1..]
  }

  const Fence: string := "```"

  /** The lines of a text made of an opening line, a body and a last line. */
  lemma ClosedLines(opening: string, body: string, closer: string) returns (lines: seq<string>)
    requires StartsWith(opening, Fence) && '\n' !in opening && '\n' !in closer
    ensures StartsWith(opening + "\n" + body + "\n" + closer, Fence)
    ensures lines == Split(opening + "\n" + body + "\n" + closer, '\n')
    ensures lines == [opening] + Split(body, '\n') + [closer]
  {
    var rest := body + "\n" + closer;
    assert opening + "\n" + body + "\n" + closer == opening + "\n" + rest;
    lines := OpeningLine(opening, rest);
    assert Split(rest, '\n') == Split(body, '\n') + [closer] by {
      SplitConcat(body, closer, '\n');
      SplitNoSeparator(closer, '\n');
    }
  }

  /** The lines of a text whose first line is `opening`. */
  lemma OpeningLine(opening: string, rest: string) returns (lines: seq<string>)
    requires StartsWith(opening, Fence) && '\n' !in opening
    ensures StartsWith(opening + "\n" + rest, Fence)
    ensures lines == Split(opening + "\n" + rest, '\n')
    ensures lines == [opening] + Split(rest, '\n')
  {
    var content := opening + "\n" + rest;
    assert content[..|Fence|] == opening[..|Fence|];
    assert content == opening + ['\n'] + rest;
    SplitAround(opening, rest, '\n');
    lines := Split(content, '\n');
  }

  lemma DropOpenFence(first: string, rest: seq<string>)
    requires |rest| >= 1
    ensures Last([first] + rest) == Last(rest)
    ensures DropFenceLines([first] + rest, false) == rest
  {
    assert ([first] + rest)[1..] == rest;
  }

  lemma DropClosedFence(first: string, middle: seq<string>, closer: string)
    ensures Last([first] + middle + [closer]) == closer
    ensures DropFenceLines([first] + middle + [closer], true) == middle
  {
  }
}
