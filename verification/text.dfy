/**
 * Text helpers used by the instrument protocol: Python's `str.strip()`, the
 * decimal renderings produced by the `d` format and by `strftime`'s
 * zero-padded fields, and the newline framing of command lines.
 */
module Text {
  import opened Wrappers

  /** Python's `str.isspace()` on one character. */
  predicate IsSpace(c: char) {
    var n := c as int;
    (0x09 <= n <= 0x0D) || (0x1C <= n <= 0x20) || n == 0x85 || n == 0xA0 ||
    n == 0x1680 || (0x2000 <= n <= 0x200A) || n == 0x2028 || n == 0x2029 ||
    n == 0x202F || n == 0x205F || n == 0x3000
  }

  /** Drops leading whitespace. */
  function TrimStart(s: string): string {
    if s != [] && IsSpace(s[0]) then TrimStart(s[1..]) else s
  }

  /** Drops trailing whitespace. */
  function TrimEnd(s: string): string {
    if s != [] && IsSpace(s[|s| - 1]) then TrimEnd(s[..|s| - 1]) else s
  }

  /** `TrimStart` keeps a suffix that does not start with whitespace, and cuts only whitespace. */
  lemma {:induction false} TrimStartSpec(s: string)
    ensures var r := TrimStart(s);
      && |r| <= |s| && r == s[|s| - |r|..]
      && (r == [] || !IsSpace(r[0]))
      && (forall i :: 0 <= i < |s| - |r| ==> IsSpace(s[i]))
  {
    if s != [] && IsSpace(s[0]) {
      var t := s[1..];
      TrimStartSpec(t);
      var r := TrimStart(t);
      assert t[|t| - |r|..] == s[|s| - |r|..];
      forall i | 0 <= i < |s| - |r|
        ensures IsSpace(s[i])
      {
        if i > 0 {
          assert s[i] == t[i - 1];
        }
      }
    }
  }

  /** `TrimEnd` keeps a prefix that does not end with whitespace, and cuts only whitespace. */
  lemma {:induction false} TrimEndSpec(s: string)
    ensures var r := TrimEnd(s);
      && |r| <= |s| && r == s[..|r|]
      && (r == [] || !IsSpace(r[|r| - 1]))
      && (forall i :: |r| <= i < |s| ==> IsSpace(s[i]))
  {
    if s != [] && IsSpace(s[|s| - 1]) {
      var t := s[..|s| - 1];
      TrimEndSpec(t);
      var r := TrimEnd(t);
      assert t[..|r|] == s[..|r|];
      forall i | |r| <= i < |s|
        ensures IsSpace(s[i])
      {
        if i < |t| {
          assert s[i] == t[i];
        }
      }
    }
  }

  /** Python's `str.strip()` with no argument. */
  function Strip(s: string): string {
    TrimStart(TrimEnd(s))
  }

  /**
   * What `Strip` yields: the slice `s[a..b]`, with no whitespace at either
   * end, such that everything cut off on either side is whitespace.
   */
  lemma StripIsTrimmedSlice(s: string) returns (a: nat, b: nat)
    ensures a <= b <= |s| && Strip(s) == s[a..b]
    ensures forall i :: 0 <= i < a ==> IsSpace(s[i])
    ensures forall i :: b <= i < |s| ==> IsSpace(s[i])
    ensures Strip(s) == [] || (!IsSpace(Strip(s)[0]) && !IsSpace(Strip(s)[|Strip(s)| - 1]))
  {
    var e := TrimEnd(s);
    var r := TrimStart(e);
    TrimEndSpec(s);
    TrimStartSpec(e);
    a, b := |e| - |r|, |e|;
    assert e == s[..b];
    forall i | 0 <= i < a
      ensures IsSpace(s[i])
    {
      assert s[i] == e[i];
    }
    if r != [] {
      assert r[|r| - 1] == e[|e| - 1];
    }
  }

  /** Stripping is idempotent: a reply that is already trimmed is left as it is. */
  lemma StripIdempotent(s: string)
    ensures Strip(Strip(s)) == Strip(s)
  {
    var r := Strip(s);
    var _, _ := StripIsTrimmedSlice(s);
    TrimEndSpec(r);
    TrimStartSpec(r);
    assert TrimEnd(r) == r;
    assert TrimStart(r) == r;
  }

  // ---------------------------------------------------------------- digits

  predicate IsDigit(c: char) {
    '0' <= c <= '9'
  }

  predicate AllDigits(s: string) {
    forall i :: 0 <= i < |s| ==> IsDigit(s[i])
  }

  function DigitChar(d: nat): (c: char)
    requires d < 10
    ensures IsDigit(c) && DigitValue(c) == d
  {
    ('0' as int + d) as char
  }

  function DigitValue(c: char): nat
    requires IsDigit(c)
  {
    c as int - '0' as int
  }

  /** The number a string of decimal digits denotes, most significant first. */
  function Value(s: string): nat
    requires AllDigits(s)
  {
    if s == [] then 0 else Value(s[..|s| - 1]) * 10 + DigitValue(s[|s| - 1])
  }

  function Pow10(w: nat): (p: nat)
    ensures p >= 1
  {
    if w == 0 then 1 else 10 * Pow10(w - 1)
  }

  /** The `d` format of a natural number: digits without leading zeros. */
  function Decimal(n: nat): (s: string)
    ensures |s| >= 1 && AllDigits(s)
    ensures (s[0] == '0') == (n == 0)
  {
    if n < 10 then [DigitChar(n)] else Decimal(n / 10) + [DigitChar(n % 10)]
  }

  /** A decimal rendering reads back as the number it renders. */
  lemma {:induction false} DecimalRoundTrip(n: nat)
    ensures Value(Decimal(n)) == n
    ensures |Decimal(n)| == 1 || Decimal(n)[0] != '0'
  {
    if n >= 10 {
      DecimalRoundTrip(n / 10);
      var s := Decimal(n);
      assert s[..|s| - 1] == Decimal(n / 10);
    }
  }

  /** The `d` format of any integer, with a minus sign when negative. */
  function IntText(i: int): string {
    if i < 0 then "-" + Decimal(-i) else Decimal(i)
  }

  /** Reads back what `IntText` writes. */
  function ParseInt(s: string): Option<int> {
    if s != [] && s[0] == '-' && AllDigits(s[1..]) then Some(0 - Value(s[1..]) as int)
    else if AllDigits(s) then Some(Value(s))
    else None
  }

  lemma IntTextRoundTrip(i: int)
    ensures ParseInt(IntText(i)) == Some(i)
  {
    var s := IntText(i);
    if i < 0 {
      var d := Decimal(-i);
      DecimalRoundTrip(-i);
      assert s[0] == '-' && s[1..] == d;
      assert ParseInt(s) == Some(0 - Value(d) as int);
    } else {
      DecimalRoundTrip(i);
      assert IsDigit(s[0]);
      assert ParseInt(s) == Some(Value(s) as int);
    }
  }

  /** A `%m`-style field: exactly `w` digits, zero-padded on the left. */
  function Pad(n: nat, w: nat): (s: string)
    ensures |s| == w && AllDigits(s)
  {
    if w == 0 then [] else Pad(n / 10, w - 1) + [DigitChar(n % 10)]
  }

  /** A padded field reads back as its number whenever the number fits. */
  lemma {:induction false} PadRoundTrip(n: nat, w: nat)
    requires n < Pow10(w)
    ensures Value(Pad(n, w)) == n
  {
    if w > 0 {
      assert n / 10 < Pow10(w - 1);
      PadRoundTrip(n / 10, w - 1);
      var s := Pad(n, w);
      assert s[..|s| - 1] == Pad(n / 10, w - 1);
    }
  }

  // ---------------------------------------------------------------- sequences

  lemma ConcatAssoc<T>(a: seq<T>, b: seq<T>, c: seq<T>)
    ensures a + b + c == a + (b + c)
  {
  }

  lemma DropDrop<T>(s: seq<T>, i: nat, j: nat)
    requires i + j <= |s|
    ensures s[i..][j..] == s[i + j..]
  {
  }

  /** The three pieces of a concatenation are where they were put. */
  lemma Concat3Parts<T>(a: seq<T>, b: seq<T>, c: seq<T>)
    ensures var s := a + b + c;
      s[..|a|] == a && s[|a|..|a| + |b|] == b && s[|a| + |b|..] == c
  {
  }

  /** Two pieces with a separator between them, and a tail. */
  lemma SeparatedParts<T>(a: seq<T>, x: T, b: seq<T>, c: seq<T>)
    ensures var s := a + [x] + b + c;
      && s[..|a|] == a && s[|a|] == x
      && s[|a| + 1..|a| + 1 + |b|] == b && s[|a| + 1 + |b|..] == c
  {
    var s := a + [x] + b + c;
    assert s == a + ([x] + b + c);
    assert s[|a| + 1..] == b + c;
  }

  /** Three pieces with a separator between each two. */
  lemma TripleParts<T>(a: seq<T>, x: T, b: seq<T>, y: T, c: seq<T>)
    ensures var s := a + [x] + b + [y] + c;
      && s[..|a|] == a && s[|a|] == x
      && s[|a| + 1..|a| + 1 + |b|] == b && s[|a| + 1 + |b|] == y
      && s[|a| + 2 + |b|..] == c
  {
    var s := a + [x] + b + [y] + c;
    SeparatedParts(a, x, b, [y] + c);
    assert s == a + [x] + b + ([y] + c);
  }

  // ---------------------------------------------------------------- lines

  /** What `instrument.write` puts on the wire for one command. */
  function Line(cmd: string): string {
    cmd + "\n"
  }

  /** `Line` applied to each command of a list, in order. */
  function Lines(cmds: seq<string>): seq<string> {
    seq(|cmds|, i requires 0 <= i < |cmds| => Line(cmds[i]))
  }

  /** `n` copies of one line. */
  function Repeat(line: string, n: nat): (r: seq<string>)
    ensures |r| == n
  {
    if n == 0 then [] else Repeat(line, n - 1) + [line]
  }

  lemma {:induction false} RepeatAt(line: string, n: nat, i: nat)
    requires i < n
    ensures Repeat(line, n)[i] == line
  {
    if i < n - 1 {
      RepeatAt(line, n - 1, i);
    }
  }

  /** Two runs of the same line make one run. */
  lemma {:induction false} RepeatAdd(line: string, a: nat, b: nat)
    ensures Repeat(line, a) + Repeat(line, b) == Repeat(line, a + b)
  {
    if b > 0 {
      RepeatAdd(line, a, b - 1);
    }
  }

  /** The byte stream a socket carries after a list of lines was sent. */
  function Stream(lines: seq<string>): string {
    if lines == [] then "" else lines[0] + Stream(lines[1..])
  }

  predicate NoNewline(s: string) {
    forall i :: 0 <= i < |s| ==> s[i] != '\n'
  }

  /** A command built from newline-free pieces is newline-free. */
  lemma NoNewlineConcat3(a: string, b: string, c: string)
    requires NoNewline(a) && NoNewline(b) && NoNewline(c)
    ensures NoNewline(a + b + c)
  {
    var s := a + b + c;
    forall i | 0 <= i < |s|
      ensures s[i] != '\n'
    {
      if i < |a| {
        assert s[i] == a[i];
      } else if i < |a| + |b| {
        assert s[i] == b[i - |a|];
      } else {
        assert s[i] == c[i - |a| - |b|];
      }
    }
  }

  /** Position of the first newline, or `|s|` when there is none. */
  function NewlineIndex(s: string): (i: nat)
    ensures i <= |s| && (i < |s| ==> s[i] == '\n')
    ensures forall j :: 0 <= j < i ==> s[j] != '\n'
  {
    if s == [] || s[0] == '\n' then 0 else 1 + NewlineIndex(s[1..])
  }

  /**
   * How the instrument splits what it receives into commands: every
   * newline-terminated piece is one command; an unterminated tail is not.
   */
  function Frames(s: string): seq<string>
    decreases |s|
  {
    var i := NewlineIndex(s);
    if i == |s| then [] else [s[..i]] + Frames(s[i + 1..])
  }

  /** One newline-terminated command at the head of a stream is one frame. */
  lemma FrameOne(c: string, rest: string)
    requires NoNewline(c)
    ensures Frames(Line(c) + rest) == [c] + Frames(rest)
  {
    var s := Line(c) + rest;
    assert s[|c|] == '\n';
    assert forall j :: 0 <= j < |c| ==> s[j] == c[j];
    assert NewlineIndex(s) == |c|;
    assert s[..|c|] == c;
    assert s[|c| + 1..] == rest;
  }

  /**
   * Appending exactly one newline per command is what lets the instrument
   * recover the commands one by one from the stream.
   */
  lemma {:induction false} FramesOfStream(cmds: seq<string>)
    requires forall i :: 0 <= i < |cmds| ==> NoNewline(cmds[i])
    ensures Frames(Stream(Lines(cmds))) == cmds
  {
    if cmds != [] {
      var rest := Stream(Lines(cmds[1..]));
      assert Lines(cmds)[1..] == Lines(cmds[1..]);
      assert Stream(Lines(cmds)) == Line(cmds[0]) + rest;
      FrameOne(cmds[0], rest);
      FramesOfStream(cmds[1..]);
    }
  }
}
