// Text helpers of the JavaScript runtime that several components rely on:
// String.prototype.split and Array.prototype.join over one separator character,
// decimal rendering of a natural number, and an Option type.

module Text {

  datatype Option<+T> = None | Some(value: T)

  /** `parts.join(sep)` */
  function Join(parts: seq<string>, sep: char): string {
    if parts == [] then ""
    else if |parts| == 1 then parts[0]
    else parts[0] + [sep] + Join(parts[1..], sep)
  }

  /** `s.split(sep)`: the maximal pieces free of `sep`. */
  function Split(s: string, sep: char): (parts: seq<string>)
    ensures |parts| >= 1
    ensures Join(parts, sep) == s
    ensures forall i :: 0 <= i < |parts| ==> sep !in parts[i]
  {
    if s == "" then [""]
    else
      var rest := Split(s[1..], sep);
      if s[0] == sep then
        assert Join([""] + rest, sep) == s by {
          assert ([""] + rest)[1..] == rest;
        }
        [""] + rest
      else
        var joined := [[s[0]] + rest[0]] + rest[1..];
        assert Join(joined, sep) == [s[0]] + Join(rest, sep) by {
          assert joined[1..] == rest[1..];
        }
        joined
  }

  /** Splitting what was joined gives the pieces back. */
  lemma {:induction false} SplitJoin(parts: seq<string>, sep: char)
    requires |parts| >= 1
    requires forall i :: 0 <= i < |parts| ==> sep !in parts[i]
    ensures Split(Join(parts, sep), sep) == parts
  {
    if |parts| == 1 {
      SplitFree(parts[0], sep);
    } else {
      SplitJoin(parts[1..], sep);
      SplitPrefix(parts[0], Join(parts[1..], sep), sep);
      assert [parts[0]] + parts[1..] == parts;
    }
  }

  lemma {:induction false} SplitFree(s: string, sep: char)
    requires sep !in s
    ensures Split(s, sep) == [s]
  {
    if s != "" {
      SplitFree(s[1..], sep);
      assert [s[0]] + s[1..] == s;
    }
  }

  lemma {:induction false} SplitPrefix(p: string, s: string, sep: char)
    requires sep !in p
    ensures Split(p + [sep] + s, sep) == [p] + Split(s, sep)
  {
    var whole := p + [sep] + s;
    if p == "" {
      assert whole[1..] == s;
    } else {
      assert whole[1..] == p[1..] + [sep] + s;
      SplitPrefix(p[1..], s, sep);
      assert [p[0]] + p[1..] == p;
    }
  }

  const DIGITS := "0123456789"

  predicate IsDigit(c: char) { '0' <= c <= '9' }

  predicate AllDigits(s: string) { forall i :: 0 <= i < |s| ==> IsDigit(s[i]) }

  /** `String(n)` */
  function Dec(n: nat): (s: string)
    ensures s != "" && AllDigits(s)
    ensures n > 0 ==> s[0] != '0'
  {
    if n < 10 then [DIGITS[n]] else Dec(n / 10) + [DIGITS[n % 10]]
  }

  /** The number a run of digits denotes; "" denotes 0 as in `Number("")`. */
  function Value(s: string): nat
    requires AllDigits(s)
  {
    if s == "" then 0 else 10 * Value(s[..|s| - 1]) + (s[|s| - 1] as int - '0' as int)
  }

  lemma {:induction false} ValueDec(n: nat)
    ensures Value(Dec(n)) == n
  {
    if n >= 10 {
      ValueDec(n / 10);
      var s := Dec(n);
      assert s[..|s| - 1] == Dec(n / 10);
      assert s[|s| - 1] == DIGITS[n % 10];
    } else {
      assert Dec(n)[..0] == "";
    }
  }

  lemma DecInjective(m: nat, n: nat)
    requires Dec(m) == Dec(n)
    ensures m == n
  {
    ValueDec(m);
    ValueDec(n);
  }

  /** `Buffer.byteLength(s)`: the length of the text in UTF-8. */
  function ByteLength(s: string): (n: nat)
    ensures n >= |s|
  {
    if s == "" then 0
    else
      (if s[0] < '\U{80}' then 1 else if s[0] < '\U{800}' then 2 else if s[0] < '\U{10000}' then 3 else 4)
      + ByteLength(s[1..])
  }

  // ---------------------------------------------------------------------------
  // White space
  // ---------------------------------------------------------------------------

  /** White space as String.prototype.trim and the regular expression \s see it. */
  predicate IsSpace(c: char) {
    c in "\t\n\r " || c in "\U{b}\U{c}\U{a0}\U{1680}\U{2028}\U{2029}\U{202f}\U{205f}\U{3000}\U{feff}" ||
    '\U{2000}' <= c <= '\U{200a}'
  }

  function TrimStart(s: string): string {
    if s != "" && IsSpace(s[0]) then TrimStart(s[1..]) else s
  }

  function TrimEnd(s: string): string {
    if s != "" && IsSpace(s[|s| - 1]) then TrimEnd(s[..|s| - 1]) else s
  }

  /** `s.trim()` */
  function Trim(s: string): string { TrimEnd(TrimStart(s)) }

  /** Not empty, and no white space at either end. */
  predicate Clean(s: string) {
    s != "" && !IsSpace(s[0]) && !IsSpace(s[|s| - 1])
  }

  lemma {:induction false} TrimStartOf(s: string) returns (n: nat)
    ensures n <= |s| && TrimStart(s) == s[n..] && (forall i :: 0 <= i < n ==> IsSpace(s[i]))
    ensures n < |s| ==> !IsSpace(s[n])
  {
    if s != "" && IsSpace(s[0]) {
      var m := TrimStartOf(s[1..]);
      n := m + 1;
      assert s[1..][m..] == s[n..];
      forall i | 0 <= i < n ensures IsSpace(s[i]) {
        assert i > 0 ==> s[i] == s[1..][i - 1];
      }
    } else {
      n := 0;
    }
  }

  lemma {:induction false} TrimEndOf(s: string) returns (n: nat)
    ensures n <= |s| && TrimEnd(s) == s[..n] && (forall i :: n <= i < |s| ==> IsSpace(s[i]))
    ensures n > 0 ==> !IsSpace(s[n - 1])
  {
    if s != "" && IsSpace(s[|s| - 1]) {
      n := TrimEndOf(s[..|s| - 1]);
      assert s[..|s| - 1][..n] == s[..n];
    } else {
      n := |s|;
    }
  }

  /** Trimming leaves a clean slice of the text, or nothing if the text is all white space. */
  lemma TrimOf(s: string)
    ensures Trim(s) == "" || Clean(Trim(s))
    ensures (exists i :: 0 <= i < |s| && !IsSpace(s[i])) ==> Trim(s) != ""
    ensures forall c :: c in Trim(s) ==> c in s
  {
    var n := TrimStartOf(s);
    var m := TrimEndOf(s[n..]);
    if Trim(s) != "" {
      assert Trim(s)[0] == s[n];
    }
    forall i | 0 <= i < |s| && !IsSpace(s[i]) ensures Trim(s) != "" {
      assert i >= n && s[n..][i - n] == s[i];
    }
  }

  lemma CleanTrims(s: string)
    requires Clean(s)
    ensures Trim(s) == s
  {
  }
}
