/** The Python 2 `str` operations the core relies on, over `seq<char>`:
    `startswith`/`endswith`, `strip()`, `split()`, `split("\n")`, `lower()`,
    `"".join(...)` and a file's `readlines()`. */
module Text {
  import opened Common

  /** The characters Python 2's `str.strip()` and `str.split()` treat as whitespace. */
  predicate IsSpace(c: char) {
    c == ' ' || c == '\t' || c == '\n' || c == '\r' || c as int == 11 || c as int == 12
  }

  predicate StartsWith(s: string, prefix: string) {
    |prefix| <= |s| && s[..|prefix|] == prefix
  }

  predicate EndsWith(s: string, suffix: string) {
    |suffix| <= |s| && s[|s| - |suffix|..] == suffix
  }

  /** Number of occurrences of `x` in `s`. */
  function Count<T(==)>(s: seq<T>, x: T): (n: nat)
    ensures n <= |s|
    ensures n == 0 <==> x !in s
  {
    if s == [] then 0 else (if s[0] == x then 1 else 0) + Count(s[1..], x)
  }

  lemma {:induction false} CountAppend<T>(a: seq<T>, b: seq<T>, x: T)
    ensures Count(a + b, x) == Count(a, x) + Count(b, x)
  {
    if a != [] {
      assert (a + b)[0] == a[0];
      assert (a + b)[1..] == a[1..] + b;
      CountAppend(a[1..], b, x);
    } else {
      assert a + b == b;
    }
  }

  /** The index of the first `c` in `s`, if any. */
  function IndexOf(s: string, c: char): (r: Option<nat>)
    ensures r.Some? ==> r.value < |s| && s[r.value] == c && c !in s[..r.value]
    ensures r.None? ==> c !in s
  {
    if s == [] then None
    else if s[0] == c then Some(0)
    else match IndexOf(s[1..], c)
      case None => None
      case Some(i) => assert s[..i + 1] == [s[0]] + s[1..][..i]; Some(i + 1)
  }

  /** `"".join(ss)`: the strings of `ss` written one after another. */
  function Concat(ss: seq<string>): string {
    if ss == [] then "" else ss[0] + Concat(ss[1..])
  }

  lemma {:induction false} ConcatAppend(a: seq<string>, b: seq<string>)
    ensures Concat(a + b) == Concat(a) + Concat(b)
  {
    if a != [] {
      assert (a + b)[0] == a[0];
      assert (a + b)[1..] == a[1..] + b;
      ConcatAppend(a[1..], b);
    } else {
      assert a + b == b;
    }
  }

  lemma ConcatCons(x: string, ss: seq<string>)
    ensures Concat([x] + ss) == x + Concat(ss)
  {
    assert ([x] + ss)[0] == x;
    assert ([x] + ss)[1..] == ss;
  }

  /** Writing `b` then `c` after `a` is writing `b + c` after it. */
  lemma AppendAssoc(a: string, b: string, c: string)
    ensures a + b + c == a + (b + c)
  {
  }

  /** Four writes after `t` leave the same text as one write of the four pieces. */
  lemma AppendFour(t: string, a: string, b: string, c: string, d: string)
    ensures t + a + b + c + d == t + (a + b + c + d)
  {
  }

  /** Writing the first `i + 1` strings is writing the first `i` and then the next. */
  lemma ConcatPrefixStep(ss: seq<string>, i: nat)
    requires i < |ss|
    ensures Concat(ss[..i + 1]) == Concat(ss[..i]) + ss[i]
  {
    assert ss[..i + 1] == ss[..i] + [ss[i]];
    ConcatAppend(ss[..i], [ss[i]]);
  }

  /** `s` written `n` times. */
  function Repeat(s: string, n: nat): string {
    if n == 0 then "" else Repeat(s, n - 1) + s
  }

  /** A file's `readlines()`: every line keeps its terminating "\n"; only the
      last line may lack one, and an empty file has no lines. */
  function ReadLines(s: string): (lines: seq<string>)
    ensures forall k :: 0 <= k < |lines| ==> lines[k] != []
    decreases |s|
  {
    if s == [] then []
    else match IndexOf(s, '\n')
      case None => [s]
      case Some(i) => [s[..i + 1]] + ReadLines(s[i + 1..])
  }

  /** Writing back every line that `readlines()` returned reproduces the file. */
  lemma {:induction false} ReadLinesConcat(s: string)
    ensures Concat(ReadLines(s)) == s
    decreases |s|
  {
    if s != [] {
      match IndexOf(s, '\n')
      case None =>
      case Some(i) =>
        ReadLinesConcat(s[i + 1..]);
        assert s == s[..i + 1] + s[i + 1..];
    }
  }

  /** The first `c` of `a + [c] + rest` is the one after `a` when `a` has none. */
  lemma {:induction false} IndexOfAfter(a: string, c: char, rest: string)
    requires c !in a
    ensures IndexOf(a + [c] + rest, c) == Some(|a|)
  {
    if a != [] {
      assert (a + [c] + rest)[0] == a[0];
      assert (a + [c] + rest)[1..] == a[1..] + [c] + rest;
      IndexOfAfter(a[1..], c, rest);
    }
  }

  /** A newline-free `a` followed by "\n" is read back as one whole line. */
  lemma ReadLinesPrepend(a: string, rest: string)
    requires '\n' !in a
    ensures ReadLines(a + "\n" + rest) == [a + "\n"] + ReadLines(rest)
  {
    var s := a + "\n" + rest;
    IndexOfAfter(a, '\n', rest);
    assert s[..|a| + 1] == a + "\n";
    assert s[|a| + 1..] == rest;
  }

  /** Appending to a text changes nothing before its first `c`. */
  lemma IndexOfPrefix(a: string, b: string, c: char)
    requires IndexOf(a, c).Some?
    ensures IndexOf(a + b, c) == IndexOf(a, c)
  {
    var i := IndexOf(a, c).value;
    assert a == a[..i] + [c] + a[i + 1..];
    calc {
      a + b;
      (a[..i] + [c] + a[i + 1..]) + b;
      a[..i] + [c] + (a[i + 1..] + b);
    }
    IndexOfAfter(a[..i], c, a[i + 1..] + b);
  }

  /** One step of `readlines()`: the line up to the first newline, then the rest. */
  lemma ReadLinesStep(s: string, i: nat)
    requires IndexOf(s, '\n') == Some(i)
    ensures ReadLines(s) == [s[..i + 1]] + ReadLines(s[i + 1..])
  {
  }

  /** The lines of two texts written one after the other, when the first is
      empty or ends with a newline, are the lines of the first then the second. */
  lemma {:induction false} ReadLinesAppend(a: string, b: string)
    requires a == [] || a[|a| - 1] == '\n'
    ensures ReadLines(a + b) == ReadLines(a) + ReadLines(b)
    decreases |a|
  {
    if a == [] {
      assert a + b == b;
    } else {
      assert IndexOf(a, '\n').Some? by { assert a[|a| - 1] == '\n'; }
      var i := IndexOf(a, '\n').value;
      var rest := a[i + 1..];
      var line := a[..i + 1];
      assert rest == [] || rest[|rest| - 1] == '\n' by {
        if rest != [] {
          assert rest[|rest| - 1] == a[|a| - 1];
        }
      }
      calc {
        ReadLines(a + b);
        { IndexOfPrefix(a, b, '\n'); ReadLinesStep(a + b, i); }
        [(a + b)[..i + 1]] + ReadLines((a + b)[i + 1..]);
        { assert (a + b)[..i + 1] == line; assert (a + b)[i + 1..] == rest + b; }
        [line] + ReadLines(rest + b);
        { ReadLinesAppend(rest, b); }
        [line] + (ReadLines(rest) + ReadLines(b));
        ([line] + ReadLines(rest)) + ReadLines(b);
        { ReadLinesStep(a, i); }
        ReadLines(a) + ReadLines(b);
      }
    }
  }

  /** A file that is empty or ends with "\n" has as many lines as newlines. */
  lemma {:induction false} ReadLinesCount(s: string)
    requires s == [] || s[|s| - 1] == '\n'
    ensures |ReadLines(s)| == Count(s, '\n')
    decreases |s|
  {
    if s != [] {
      var i := IndexOf(s, '\n');
      assert i.Some? by { assert s[|s| - 1] == '\n'; }
      var j := i.value;
      assert s == s[..j] + ([s[j]] + s[j + 1..]);
      CountAppend(s[..j], [s[j]] + s[j + 1..], '\n');
      CountAppend([s[j]], s[j + 1..], '\n');
      var rest := s[j + 1..];
      assert rest == [] || rest[|rest| - 1] == '\n';
      ReadLinesCount(rest);
    }
  }

  /** `s.split("\n")`: the pieces between newlines, dropping the newlines. */
  function SplitLines(s: string): (pieces: seq<string>)
    ensures |pieces| >= 1
    ensures forall k :: 0 <= k < |pieces| ==> '\n' !in pieces[k]
    decreases |s|
  {
    match IndexOf(s, '\n')
    case None => [s]
    case Some(i) => [s[..i]] + SplitLines(s[i + 1..])
  }

  /** `"\n".join(pieces)`. */
  function JoinLines(pieces: seq<string>): string
    requires |pieces| >= 1
  {
    if |pieces| == 1 then pieces[0] else pieces[0] + "\n" + JoinLines(pieces[1..])
  }

  /** Splitting on newlines and joining with newlines gives the text back. */
  lemma {:induction false} SplitLinesJoin(s: string)
    ensures JoinLines(SplitLines(s)) == s
    decreases |s|
  {
    match IndexOf(s, '\n')
    case None =>
    case Some(i) =>
      SplitLinesJoin(s[i + 1..]);
      assert s == s[..i] + "\n" + s[i + 1..];
  }

  /** `s` without its leading whitespace. */
  function TrimLeft(s: string): (r: string)
    ensures |r| <= |s| && r == s[|s| - |r|..]
    ensures r == [] || !IsSpace(r[0])
    ensures forall i :: 0 <= i < |s| - |r| ==> IsSpace(s[i])
  {
    if s != [] && IsSpace(s[0]) then TrimLeft(s[1..]) else s
  }

  /** `s` without its trailing whitespace. */
  function TrimRight(s: string): (r: string)
    ensures |r| <= |s| && r == s[..|r|]
    ensures r == [] || !IsSpace(r[|r| - 1])
    ensures forall i :: |r| <= i < |s| ==> IsSpace(s[i])
  {
    if s != [] && IsSpace(s[|s| - 1]) then TrimRight(s[..|s| - 1]) else s
  }

  /** How many whitespace characters `s` starts with. */
  function LeadingSpaces(s: string): nat {
    |s| - |TrimLeft(s)|
  }

  /** `s.strip()`: the slice of `s` left once whitespace is dropped at both ends. */
  function Strip(s: string): (r: string)
    ensures r == [] || (!IsSpace(r[0]) && !IsSpace(r[|r| - 1]))
    ensures LeadingSpaces(s) + |r| <= |s| && r == s[LeadingSpaces(s)..LeadingSpaces(s) + |r|]
    ensures forall j :: 0 <= j < LeadingSpaces(s) ==> IsSpace(s[j])
    ensures forall j :: LeadingSpaces(s) + |r| <= j < |s| ==> IsSpace(s[j])
  {
    var t := TrimLeft(s);
    var r := TrimRight(t);
    var i := |s| - |t|;
    assert r == s[i..i + |r|];
    assert forall j :: i + |r| <= j < |s| ==> s[j] == t[j - i];
    r
  }

  lemma {:induction false} TrimLeftAppend(s: string, t: string)
    ensures TrimLeft(s) != [] ==> TrimLeft(s + t) == TrimLeft(s) + t
    ensures TrimLeft(s) == [] ==> TrimLeft(s + t) == TrimLeft(t)
  {
    if s == [] {
      assert s + t == t;
    } else if IsSpace(s[0]) {
      assert (s + t)[0] == s[0];
      assert (s + t)[1..] == s[1..] + t;
      TrimLeftAppend(s[1..], t);
    } else {
      assert (s + t)[0] == s[0];
    }
  }

  /** Whitespace written after a value does not change what `strip()` gives back. */
  lemma StripAppendSpace(s: string, c: char)
    requires IsSpace(c)
    ensures Strip(s + [c]) == Strip(s)
  {
    TrimLeftAppend(s, [c]);
    if TrimLeft(s) != [] {
      var x := TrimLeft(s);
      assert (x + [c])[..|x|] == x;
    }
  }

  /** The index of the first whitespace character of `t`, or `|t|`. */
  function TokenEnd(t: string): (e: nat)
    ensures e <= |t| && (e < |t| ==> IsSpace(t[e]))
    ensures forall i :: 0 <= i < e ==> !IsSpace(t[i])
  {
    if t == [] || IsSpace(t[0]) then 0 else 1 + TokenEnd(t[1..])
  }

  /** `line.split()[0]` when `line.split()` is not empty: the first run of
      non-whitespace characters, starting at `LeadingSpaces(line)`. */
  function FirstToken(line: string): (tok: Option<string>)
    ensures tok.None? <==> forall i :: 0 <= i < |line| ==> IsSpace(line[i])
    ensures tok.Some? ==>
      && tok.value != []
      && (forall i :: 0 <= i < |tok.value| ==> !IsSpace(tok.value[i]))
      && LeadingSpaces(line) + |tok.value| <= |line|
      && line[LeadingSpaces(line)..LeadingSpaces(line) + |tok.value|] == tok.value
      && (LeadingSpaces(line) + |tok.value| == |line| || IsSpace(line[LeadingSpaces(line) + |tok.value|]))
  {
    var t := TrimLeft(line);
    if t == [] then None
    else
      var i := LeadingSpaces(line);
      var e := TokenEnd(t);
      assert t == line[i..];
      assert line[i] == t[0] && !IsSpace(line[i]);
      assert e > 0;
      assert forall j :: 0 <= j < e ==> t[..e][j] == t[j];
      assert line[i..i + e] == t[..e];
      assert i + e < |line| ==> line[i + e] == t[e];
      Some(t[..e])
  }

  predicate IsUpper(c: char) {
    'A' <= c <= 'Z'
  }

  function LowerChar(c: char): char {
    if IsUpper(c) then (c as int + 32) as char else c
  }

  /** `s.lower()` of a Python 2 byte string: only ASCII capitals change. */
  function Lower(s: string): (r: string)
    ensures |r| == |s|
    ensures forall i :: 0 <= i < |s| ==> r[i] == LowerChar(s[i])
  {
    if s == [] then [] else [LowerChar(s[0])] + Lower(s[1..])
  }

  /** Lower-casing leaves a string unchanged exactly when it has no capital. */
  lemma LowerUnchanged(s: string)
    ensures Lower(s) == s <==> forall i :: 0 <= i < |s| ==> !IsUpper(s[i])
  {
    if Lower(s) == s {
      forall i | 0 <= i < |s| ensures !IsUpper(s[i]) {
        assert LowerChar(s[i]) == s[i];
      }
    }
  }
}
