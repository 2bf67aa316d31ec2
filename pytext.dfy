/** The parts of Python's string handling that the two parsers use:
    `rstrip`, `strip`, `split(' ')`, `split()` and `int()` on a string, the
    last restricted to ASCII decimal digits. `NatToString`/`IntToString`
    write integers in decimal; they are the partners for the round trips. */
module PyText {
  import opened Base

  /** `str.isspace()` for one character: the characters Python treats as
      whitespace in `strip()` and `split()`. */
  predicate IsSpace(c: char)
  {
    || c == ' ' || '\t' <= c <= '\r' || '\U{1c}' <= c <= '\U{1f}'
    || c == '\U{85}' || c == '\U{a0}' || c == '\U{1680}'
    || '\U{2000}' <= c <= '\U{200a}' || c == '\U{2028}' || c == '\U{2029}'
    || c == '\U{202f}' || c == '\U{205f}' || c == '\U{3000}'
  }

  /** `s.rstrip(c)`: the longest prefix of s that does not end in c. */
  function RStrip(s: string, c: char): (r: string)
    ensures r <= s
    ensures |r| == 0 || r[|r| - 1] != c
    ensures forall k :: |r| <= k < |s| ==> s[k] == c
    decreases |s|
  {
    if |s| > 0 && s[|s| - 1] == c then RStrip(s[..|s| - 1], c) else s
  }

  /** `s.lstrip()`: the longest suffix of s that does not start with whitespace. */
  function LStripSpace(s: string): (r: string)
    ensures |r| <= |s| && r == s[|s| - |r|..]
    ensures |r| == 0 || !IsSpace(r[0])
    ensures forall k :: 0 <= k < |s| - |r| ==> IsSpace(s[k])
    decreases |s|
  {
    if |s| > 0 && IsSpace(s[0]) then
      var r := LStripSpace(s[1..]);
      assert s[1..][|s| - 1 - |r|..] == s[|s| - |r|..];
      assert forall k :: 1 <= k < |s| ==> s[k] == s[1..][k - 1];
      r
    else s
  }

  /** `s.rstrip()`: the longest prefix of s that does not end in whitespace. */
  function RStripSpace(s: string): (r: string)
    ensures r <= s
    ensures |r| == 0 || !IsSpace(r[|r| - 1])
    ensures forall k :: |r| <= k < |s| ==> IsSpace(s[k])
    decreases |s|
  {
    if |s| > 0 && IsSpace(s[|s| - 1]) then RStripSpace(s[..|s| - 1]) else s
  }

  /** `s.strip()`. */
  function Strip(s: string): string
  {
    RStripSpace(LStripSpace(s))
  }

  /** The whitespace `int()` skips around its digits. It keeps ASCII text
      as it is and skips only ' ' and '\t' to '\r' there; a character from
      U+0080 up that `isspace` accepts counts as a space. The separators
      U+001C to U+001F pass `isspace` but make `int()` raise ValueError. */
  predicate IsIntSpace(c: char)
  {
    IsSpace(c) && !('\U{1c}' <= c <= '\U{1f}')
  }

  /** The longest suffix of s that does not start with `int()` whitespace. */
  function LStripIntSpace(s: string): (r: string)
    ensures |r| <= |s| && r == s[|s| - |r|..]
    ensures |r| == 0 || !IsIntSpace(r[0])
    ensures forall k :: 0 <= k < |s| - |r| ==> IsIntSpace(s[k])
    decreases |s|
  {
    if |s| > 0 && IsIntSpace(s[0]) then
      var r := LStripIntSpace(s[1..]);
      assert s[1..][|s| - 1 - |r|..] == s[|s| - |r|..];
      assert forall k :: 1 <= k < |s| ==> s[k] == s[1..][k - 1];
      r
    else s
  }

  /** The longest prefix of s that does not end in `int()` whitespace. */
  function RStripIntSpace(s: string): (r: string)
    ensures r <= s
    ensures |r| == 0 || !IsIntSpace(r[|r| - 1])
    ensures forall k :: |r| <= k < |s| ==> IsIntSpace(s[k])
    decreases |s|
  {
    if |s| > 0 && IsIntSpace(s[|s| - 1]) then RStripIntSpace(s[..|s| - 1]) else s
  }

  /** What `int()` strips before it reads the digits. */
  function IntStrip(s: string): string
  {
    RStripIntSpace(LStripIntSpace(s))
  }

  /** `s.split(c)`: the pieces between occurrences of c, empty pieces kept. */
  function SplitOn(s: string, c: char): (r: seq<string>)
    ensures |r| >= 1
    ensures forall i :: 0 <= i < |r| ==> c !in r[i]
    decreases |s|
  {
    if |s| == 0 then [""]
    else
      var rest := SplitOn(s[1..], c);
      if s[0] == c then [""] + rest else [[s[0]] + rest[0]] + rest[1..]
  }

  /** `c.join(pieces)`. */
  function Join(pieces: seq<string>, c: char): string
    requires |pieces| >= 1
    decreases |pieces|
  {
    if |pieces| == 1 then pieces[0] else pieces[0] + [c] + Join(pieces[1..], c)
  }

  /** Splitting loses nothing: joining the pieces gives back the string. */
  lemma {:induction false} JoinSplitOn(s: string, c: char)
    ensures Join(SplitOn(s, c), c) == s
    decreases |s|
  {
    if |s| > 0 {
      var rest := SplitOn(s[1..], c);
      JoinSplitOn(s[1..], c);
      if s[0] == c {
        assert s == [c] + s[1..];
      } else if |rest| == 1 {
        assert s == [s[0]] + s[1..];
      } else {
        assert rest == [rest[0]] + rest[1..];
        assert Join(rest, c) == rest[0] + [c] + Join(rest[1..], c);
        assert s == [s[0]] + s[1..];
      }
    }
  }

  /** Splitting a join of pieces free of c gives the pieces back. */
  lemma {:induction false} SplitOnJoin(pieces: seq<string>, c: char)
    requires |pieces| >= 1
    requires forall i :: 0 <= i < |pieces| ==> c !in pieces[i]
    ensures SplitOn(Join(pieces, c), c) == pieces
    decreases |pieces|
  {
    if |pieces| == 1 {
      SplitOnFree(pieces[0], c);
    } else {
      var tail := Join(pieces[1..], c);
      SplitOnJoin(pieces[1..], c);
      SplitOnPrefix(pieces[0], [c] + tail, c);
      assert ([c] + tail)[1..] == tail;
      assert SplitOn([c] + tail, c) == [""] + pieces[1..];
      assert Join(pieces, c) == pieces[0] + ([c] + tail);
      assert SplitOn([c] + tail, c)[0] == "";
      assert pieces[0] + "" == pieces[0];
      assert SplitOn([c] + tail, c)[1..] == pieces[1..];
      assert pieces == [pieces[0]] + pieces[1..];
    }
  }

  lemma {:induction false} SplitOnFree(s: string, c: char)
    requires c !in s
    ensures SplitOn(s, c) == [s]
    decreases |s|
  {
    if |s| > 0 {
      SplitOnFree(s[1..], c);
      assert s == [s[0]] + s[1..];
    }
  }

  lemma {:induction false} SplitOnPrefix(t: string, u: string, c: char)
    requires c !in t
    ensures SplitOn(t + u, c) == [t + SplitOn(u, c)[0]] + SplitOn(u, c)[1..]
    decreases |t|
  {
    if |t| > 0 {
      assert (t + u)[1..] == t[1..] + u;
      SplitOnPrefix(t[1..], u, c);
      assert [t[0]] + (t[1..] + SplitOn(u, c)[0]) == t + SplitOn(u, c)[0];
    } else {
      assert t + u == u;
      assert t + SplitOn(u, c)[0] == SplitOn(u, c)[0];
      assert SplitOn(u, c) == [SplitOn(u, c)[0]] + SplitOn(u, c)[1..];
    }
  }

  /** The maximal prefix of s free of whitespace. */
  function Token(s: string): (w: string)
    ensures w <= s
    ensures forall k :: 0 <= k < |w| ==> !IsSpace(w[k])
    ensures |w| == |s| || IsSpace(s[|w|])
    decreases |s|
  {
    if |s| == 0 || IsSpace(s[0]) then "" else [s[0]] + Token(s[1..])
  }

  /** `s.split()`: the maximal runs of non-whitespace characters, in order. */
  function Words(s: string): (r: seq<string>)
    ensures forall i :: 0 <= i < |r| ==> |r[i]| > 0 && forall k :: 0 <= k < |r[i]| ==> !IsSpace(r[i][k])
    decreases |s|
  {
    if |s| == 0 then []
    else if IsSpace(s[0]) then Words(s[1..])
    else
      var w := Token(s);
      [w] + Words(s[|w|..])
  }

  predicate IsDigit(c: char) { '0' <= c <= '9' }

  /** A non-empty run of ASCII digits. */
  predicate IsDecimal(s: string) { |s| > 0 && forall k :: 0 <= k < |s| ==> IsDigit(s[k]) }

  /** The value of a run of digits, most significant first. */
  function DigitsValue(s: string): nat
    requires forall k :: 0 <= k < |s| ==> IsDigit(s[k])
    decreases |s|
  {
    if |s| == 0 then 0
    else
      assert IsDigit(s[|s| - 1]);
      DigitsValue(s[..|s| - 1]) * 10 + (s[|s| - 1] as int - '0' as int)
  }

  /** An optional sign followed by digits. */
  function ParseSigned(s: string): Option<int>
  {
    if |s| > 0 && (s[0] == '+' || s[0] == '-') then
      if IsDecimal(s[1..]) then
        var magnitude: int := DigitsValue(s[1..]);
        Some(if s[0] == '-' then -magnitude else magnitude)
      else None
    else if IsDecimal(s) then Some(DigitsValue(s))
    else None
  }

  /** `int(s)` for a string: surrounding `int()` whitespace is ignored;
      None stands for ValueError. */
  function PyInt(s: string): Option<int>
  {
    ParseSigned(IntStrip(s))
  }

  /** `list(map(int, tokens))`: None as soon as one token raises ValueError. */
  function PyInts(tokens: seq<string>): (r: Option<seq<int>>)
    ensures r.Some? <==> forall i :: 0 <= i < |tokens| ==> PyInt(tokens[i]).Some?
    ensures r.Some? ==> |r.value| == |tokens| && forall i :: 0 <= i < |tokens| ==> PyInt(tokens[i]) == Some(r.value[i])
    decreases |tokens|
  {
    if |tokens| == 0 then Some([])
    else match PyInt(tokens[0])
      case None => None
      case Some(v) =>
        match PyInts(tokens[1..])
        case None => None
        case Some(vs) => Some([v] + vs)
  }

  lemma PyIntsCons(t: string, ts: seq<string>, v: int, vs: seq<int>)
    requires PyInt(t) == Some(v) && PyInts(ts) == Some(vs)
    ensures PyInts([t] + ts) == Some([v] + vs)
  {
    assert ([t] + ts)[0] == t;
    assert ([t] + ts)[1..] == ts;
  }

  function DigitChar(d: nat): char
    requires d < 10
  {
    ('0' as int + d) as char
  }

  /** The decimal representation of n, without leading zeros. */
  function NatToString(n: nat): (s: string)
    ensures IsDecimal(s)
    decreases n
  {
    if n < 10 then [DigitChar(n)] else NatToString(n / 10) + [DigitChar(n % 10)]
  }

  /** `str(i)`: a leading '-' for a negative number. */
  function IntToString(i: int): string
  {
    if i < 0 then "-" + NatToString(-i) else NatToString(i)
  }

  lemma {:induction false} DigitsValueOfNatToString(n: nat)
    ensures DigitsValue(NatToString(n)) == n
    decreases n
  {
    var s := NatToString(n);
    if n >= 10 {
      DigitsValueOfNatToString(n / 10);
      assert s[..|s| - 1] == NatToString(n / 10);
    }
  }

  /** `int(str(i)) == i`. */
  lemma PyIntOfIntToString(i: int)
    ensures PyInt(IntToString(i)) == Some(i)
  {
    var s := IntToString(i);
    IntToStringWord(i);
    IntStripWord(s);
    if i < 0 {
      NegativeDigits(-i);
    } else {
      DigitsValueOfNatToString(i);
      assert s == NatToString(i);
    }
  }

  lemma NegativeDigits(n: nat)
    requires n > 0
    ensures ParseSigned("-" + NatToString(n)) == Some(-(n as int))
  {
    var s := "-" + NatToString(n);
    assert s[1..] == NatToString(n);
    DigitsValueOfNatToString(n);
  }

  /** A word has no surrounding whitespace for `int()` to strip. */
  lemma IntStripWord(w: string)
    requires |w| > 0 && forall k :: 0 <= k < |w| ==> !IsSpace(w[k])
    ensures IntStrip(w) == w
  {
    assert !IsIntSpace(w[0]);
    assert LStripIntSpace(w) == w;
    assert !IsIntSpace(w[|w| - 1]);
    assert RStripIntSpace(w) == w;
  }

  /** What `fp.readline()` returns for line i of a file whose lines are
      `lines`: "" once the file is exhausted. */
  function ReadLine(lines: seq<string>, i: int): (line: string)
    ensures 0 <= i < |lines| ==> line == lines[i]
    ensures !(0 <= i < |lines|) ==> line == ""
  {
    if 0 <= i < |lines| then lines[i] else ""
  }

  /** One whitespace-free non-empty word: `split()` finds it as a whole. */
  lemma {:induction false} TokenOfWord(w: string, rest: string)
    requires forall k :: 0 <= k < |w| ==> !IsSpace(w[k])
    requires |rest| == 0 || IsSpace(rest[0])
    ensures Token(w + rest) == w
    decreases |w|
  {
    if |w| == 0 {
      assert w + rest == rest;
    } else {
      assert (w + rest)[1..] == w[1..] + rest;
      TokenOfWord(w[1..], rest);
    }
  }

  lemma {:induction false} WordsAllSpace(s: string)
    requires forall k :: 0 <= k < |s| ==> IsSpace(s[k])
    ensures Words(s) == []
    decreases |s|
  {
    if |s| > 0 {
      WordsAllSpace(s[1..]);
    }
  }

  /** `split()` undoes joining non-empty whitespace-free words with single
      spaces, whatever whitespace follows (a newline, say). */
  lemma {:induction false} WordsJoin(pieces: seq<string>, tail: string)
    requires |pieces| >= 1
    requires forall i :: 0 <= i < |pieces| ==> |pieces[i]| > 0 && forall k :: 0 <= k < |pieces[i]| ==> !IsSpace(pieces[i][k])
    requires forall k :: 0 <= k < |tail| ==> IsSpace(tail[k])
    ensures Words(Join(pieces, ' ') + tail) == pieces
    decreases |pieces|
  {
    var p := pieces[0];
    var rest := if |pieces| == 1 then tail else [' '] + (Join(pieces[1..], ' ') + tail);
    assert Join(pieces, ' ') + tail == p + rest;
    TokenOfWord(p, rest);
    assert (p + rest)[|p|..] == rest;
    assert Words(p + rest) == [p] + Words(rest);
    if |pieces| == 1 {
      WordsAllSpace(tail);
    } else {
      assert rest[1..] == Join(pieces[1..], ' ') + tail;
      WordsJoin(pieces[1..], tail);
      assert [p] + pieces[1..] == pieces;
    }
  }

  lemma JoinThree(a: string, b: string, c: string, sep: char)
    ensures Join([a, b, c], sep) == a + [sep] + b + [sep] + c
  {
    assert [a, b, c][1..] == [b, c];
    assert [b, c][1..] == [c];
    assert Join([c], sep) == c;
    assert Join([b, c], sep) == b + [sep] + c;
    assert Join([a, b, c], sep) == a + [sep] + (b + [sep] + c);
  }

  lemma ThreeInts(a: string, b: string, c: string, x: int, y: int, z: int)
    requires PyInt(a) == Some(x) && PyInt(b) == Some(y) && PyInt(c) == Some(z)
    ensures PyInts([a, b, c]) == Some([x, y, z])
  {
    PyIntsCons(c, [], z, []);
    assert [c] + [] == [c] && [z] + [] == [z];
    PyIntsCons(b, [c], y, [z]);
    assert [b] + [c] == [b, c] && [y] + [z] == [y, z];
    PyIntsCons(a, [b, c], x, [y, z]);
    assert [a] + [b, c] == [a, b, c] && [x] + [y, z] == [x, y, z];
  }

  lemma PyIntOfNatToString(n: nat)
    ensures PyInt(NatToString(n)) == Some(n)
  {
    PyIntOfIntToString(n);
  }

  /** `str(i)` is one non-empty word. */
  lemma IntToStringWord(i: int)
    ensures |IntToString(i)| > 0 && forall k :: 0 <= k < |IntToString(i)| ==> !IsSpace(IntToString(i)[k])
  {
    var digits := NatToString(if i < 0 then -i else i);
    assert IsDecimal(digits);
    if i < 0 {
      assert IntToString(i) == "-" + digits;
      assert forall k :: 1 <= k < |IntToString(i)| ==> IntToString(i)[k] == digits[k - 1];
    }
  }

  /** Stripping what is already stripped changes nothing. */
  lemma StripStripped(s: string)
    ensures Strip(Strip(s)) == Strip(s)
  {
    var l := LStripSpace(s);
    var r := RStripSpace(l);
    if |r| > 0 {
      assert r[0] == l[0];
    }
    assert LStripSpace(r) == r;
  }

  /** After `strip()` there is nothing left for `int()` to strip: `int()`
      skips a subset of `isspace`. */
  lemma IntStripOfStrip(s: string)
    ensures IntStrip(Strip(s)) == Strip(s)
  {
    var l := LStripSpace(s);
    var r := RStripSpace(l);
    if |r| > 0 {
      assert r[0] == l[0];
      assert !IsIntSpace(r[0]);
      assert !IsIntSpace(r[|r| - 1]);
    }
    assert LStripIntSpace(r) == r;
    assert RStripIntSpace(r) == r;
  }

  /** `int()` raises on a digit followed by U+001C, such as "5\x1c". */
  lemma SeparatorNotIntSpace(s: string)
    requires |s| == 2 && IsDigit(s[0]) && s[1] == '\U{1c}'
    ensures PyInt(s) == None
  {
    assert !IsIntSpace(s[0]) && !IsIntSpace(s[1]);
    assert LStripIntSpace(s) == s;
    assert RStripIntSpace(s) == s;
    assert !IsDigit(s[1]);
  }

  /** `strip()` removes that U+001C. */
  lemma SeparatorStripped(s: string)
    requires |s| == 2 && IsDigit(s[0]) && s[1] == '\U{1c}'
    ensures Strip(s) == s[..1]
  {
    assert !IsSpace(s[0]) && IsSpace(s[1]);
    assert LStripSpace(s) == s;
    assert RStripSpace(s) == RStripSpace(s[..1]);
    assert RStripSpace(s[..1]) == s[..1];
  }

  /** A word followed by a newline strips to the word. */
  lemma StripWordNewline(w: string)
    requires |w| > 0 && forall k :: 0 <= k < |w| ==> !IsSpace(w[k])
    ensures Strip(w + "\n") == w
  {
    assert LStripSpace(w + "\n") == w + "\n";
    assert (w + "\n")[..|w|] == w;
    assert RStripSpace(w) == w;
  }
}
