/** The value types every component shares. */
module Options {
  datatype Option<+T> = None | Some(value: T)
}

/** What all sequences share. */
module Sequences {
  predicate Distinct<T(==)>(xs: seq<T>) {
    forall i, j :: 0 <= i < j < |xs| ==> xs[i] != xs[j]
  }

  lemma Assoc<T>(a: seq<T>, b: seq<T>, c: seq<T>)
    ensures a + (b + c) == a + b + c
  {
  }

  /** All the sequences, one after the other. */
  function Joined<T>(xss: seq<seq<T>>): seq<T> {
    if xss == [] then [] else xss[0] + Joined(xss[1..])
  }
}

/** Searching and trimming of byte strings, as std::find, std::string::find and isspace do it.
    A byte is a `char`; positions are `nat`, and "not found" is the end of the string or `None`. */
module Bytes {
  import opened Options

  /** First index of `c` in `s` at or after `from`; `|s|` when there is none. */
  function Find(s: string, c: char, from: nat): (i: nat)
    requires from <= |s|
    ensures from <= i <= |s|
    decreases |s| - from
  {
    if from == |s| || s[from] == c then from else Find(s, c, from + 1)
  }

  lemma {:induction false} FindFirst(s: string, c: char, from: nat)
    requires from <= |s|
    ensures var i := Find(s, c, from);
            (i < |s| ==> s[i] == c) && forall k :: from <= k < i ==> s[k] != c
    decreases |s| - from
  {
    if from < |s| && s[from] != c { FindFirst(s, c, from + 1); }
  }

  lemma Middle(a: string, b: string, c: string)
    ensures (a + b + c)[|a|..|a| + |b|] == b
  {
  }

  /** A stretch without `c`, followed by `c` or by the end, is what a search crosses. */
  lemma {:induction false} FindAcross(pre: string, seg: string, rest: string, c: char)
    requires c !in seg && (rest == "" || rest[0] == c)
    ensures Find(pre + seg + rest, c, |pre|) == |pre| + |seg|
    decreases |seg|
  {
    var s := pre + seg + rest;
    if seg != "" {
      assert s[|pre|] == seg[0];
      assert s == (pre + [seg[0]]) + seg[1..] + rest;
      FindAcross(pre + [seg[0]], seg[1..], rest, c);
    }
  }

  /** Last index of `c` in `s` at or before `upto`; -1 when there is none. */
  function FindLast(s: string, c: char, upto: int): (i: int)
    requires upto < |s|
    ensures -1 <= i <= upto || (i == -1 && upto < 0)
    decreases upto + 1
  {
    if upto < 0 then -1 else if s[upto] == c then upto else FindLast(s, c, upto - 1)
  }

  lemma {:induction false} FindLastIsLast(s: string, c: char, upto: int)
    requires upto < |s|
    ensures var i := FindLast(s, c, upto);
            (i >= 0 ==> s[i] == c) && forall k :: i < k <= upto && 0 <= k ==> s[k] != c
    decreases upto + 1
  {
    if upto >= 0 && s[upto] != c { FindLastIsLast(s, c, upto - 1); }
  }

  predicate CrlfAt(s: string, i: nat) {
    i + 1 < |s| && s[i] == '\r' && s[i + 1] == '\n'
  }

  ghost predicate NoCrlf(s: string) {
    forall i: nat :: !CrlfAt(s, i)
  }

  function FindCrlfFrom(s: string, from: nat): (r: Option<nat>)
    ensures r.Some? ==> r.value + 1 < |s|
    decreases |s| - from
  {
    if from + 1 >= |s| then None
    else if CrlfAt(s, from) then Some(from)
    else FindCrlfFrom(s, from + 1)
  }

  /** The position of the first CR LF pair. */
  function FindCrlf(s: string): (r: Option<nat>)
    ensures r.Some? ==> r.value + 1 < |s|
  {
    FindCrlfFrom(s, 0)
  }

  lemma {:induction false} FindCrlfFromFirst(s: string, from: nat)
    ensures var r := FindCrlfFrom(s, from);
            (r.Some? ==> from <= r.value && CrlfAt(s, r.value))
            && forall k: nat :: from <= k && (r.Some? ==> k < r.value) ==> !CrlfAt(s, k)
    decreases |s| - from
  {
    if from + 1 < |s| && !CrlfAt(s, from) { FindCrlfFromFirst(s, from + 1); }
  }

  lemma {:induction false} FindCrlfIs(s: string, from: nat, i: nat)
    requires from <= i && CrlfAt(s, i) && forall k: nat :: from <= k < i ==> !CrlfAt(s, k)
    ensures FindCrlfFrom(s, from) == Some(i)
    decreases i - from
  {
    if from < i { FindCrlfIs(s, from + 1, i); }
  }

  /** Later bytes never move a CR LF that is already in the buffer. */
  lemma CrlfStable(s: string, t: string)
    requires FindCrlf(s).Some?
    ensures FindCrlf(s + t) == FindCrlf(s)
  {
    FindCrlfFromFirst(s, 0);
    var i := FindCrlf(s).value;
    forall k: nat | k < i ensures !CrlfAt(s + t, k) {
      assert !CrlfAt(s, k);
    }
    FindCrlfIs(s + t, 0, i);
  }

  /** The first CR LF of "line CR LF rest" is the one written there, exactly if the line has none. */
  lemma CrlfEndsLineIff(line: string, rest: string)
    ensures FindCrlf(line + ("\r\n" + rest)) == Some(|line|) <==> NoCrlf(line)
    ensures (line + ("\r\n" + rest))[..|line|] == line
    ensures (line + ("\r\n" + rest))[|line| + 2..] == rest
  {
    var s := line + ("\r\n" + rest);
    assert CrlfAt(s, |line|);
    assert forall k: nat | k < |line| :: CrlfAt(line, k) ==> CrlfAt(s, k);
    FindCrlfFromFirst(s, 0);
    if NoCrlf(line) {
      forall k: nat | k < |line| ensures !CrlfAt(s, k) {
        assert !CrlfAt(line, k);
      }
      FindCrlfIs(s, 0, |line|);
    } else {
      var i: nat :| CrlfAt(line, i);
      assert CrlfAt(s, i);
    }
  }

  /** `pat` occurs in `s` at position `i`. */
  predicate TextAt(s: string, pat: string, i: nat) {
    i + |pat| <= |s| && s[i..i + |pat|] == pat
  }

  function FindTextFrom(s: string, pat: string, from: nat): (r: Option<nat>)
    ensures r.Some? ==> r.value + |pat| <= |s|
    decreases |s| - from
  {
    if from + |pat| > |s| then None
    else if TextAt(s, pat, from) then Some(from)
    else FindTextFrom(s, pat, from + 1)
  }

  /** First occurrence of `pat` in `s`. */
  function FindText(s: string, pat: string): (r: Option<nat>)
    ensures r.Some? ==> r.value + |pat| <= |s|
  {
    FindTextFrom(s, pat, 0)
  }

  lemma {:induction false} FindTextFromFirst(s: string, pat: string, from: nat)
    ensures var r := FindTextFrom(s, pat, from);
            (r.Some? ==> from <= r.value && TextAt(s, pat, r.value))
            && forall k: nat :: from <= k && (r.Some? ==> k < r.value) ==> !TextAt(s, pat, k)
    decreases |s| - from
  {
    if from + |pat| <= |s| && !TextAt(s, pat, from) { FindTextFromFirst(s, pat, from + 1); }
  }

  lemma {:induction false} FindTextIs(s: string, pat: string, from: nat, i: nat)
    requires from <= i && TextAt(s, pat, i)
    requires forall k: nat :: from <= k < i ==> !TextAt(s, pat, k)
    ensures FindTextFrom(s, pat, from) == Some(i)
    decreases i - from
  {
    if from < i { FindTextIs(s, pat, from + 1, i); }
  }

  /** C's isspace in the default locale. */
  predicate IsSpace(c: char) {
    c == ' ' || c == '\t' || c == '\n' || c == '\r' || c == 11 as char || c == 12 as char
  }

  lemma SpacesAre(c: char)
    ensures IsSpace(c) <==> c in " \t\n\r" + [11 as char, 12 as char]
  {
  }

  function TrimLeft(s: string): (r: string)
    ensures |r| <= |s|
    ensures r != "" ==> !IsSpace(r[0])
  {
    if s != "" && IsSpace(s[0]) then TrimLeft(s[1..]) else s
  }

  function TrimRight(s: string): (r: string)
    ensures |r| <= |s|
    ensures r != "" ==> !IsSpace(r[|r| - 1]) && r[0] == s[0]
  {
    if s != "" && IsSpace(s[|s| - 1]) then TrimRight(s[..|s| - 1]) else s
  }

  function Trim(s: string): string {
    TrimRight(TrimLeft(s))
  }

  /** No white space at either end. */
  predicate Trimmed(s: string) {
    s == "" || (!IsSpace(s[0]) && !IsSpace(s[|s| - 1]))
  }

  predicate AllSpace(s: string) {
    forall k :: 0 <= k < |s| ==> IsSpace(s[k])
  }

  lemma {:induction false} TrimLeftPadded(a: string, v: string)
    requires AllSpace(a) && (v == "" || !IsSpace(v[0]))
    ensures TrimLeft(a + v) == v
  {
    if a != "" {
      assert IsSpace(a[0]) && (a + v)[1..] == a[1..] + v;
      TrimLeftPadded(a[1..], v);
    } else {
      assert a + v == v;
    }
  }

  lemma {:induction false} TrimRightPadded(v: string, b: string)
    requires AllSpace(b) && (v == "" || !IsSpace(v[|v| - 1]))
    ensures TrimRight(v + b) == v
  {
    if b != "" {
      assert IsSpace(b[|b| - 1]) && (v + b)[..|v + b| - 1] == v + b[..|b| - 1];
      TrimRightPadded(v, b[..|b| - 1]);
    } else {
      assert v + b == v;
    }
  }

  /** Trimming removes the white space around a trimmed text and nothing else. */
  lemma TrimPadded(a: string, v: string, b: string)
    requires AllSpace(a) && Trimmed(v) && AllSpace(b)
    ensures Trim(a + v + b) == v
  {
    if v == "" {
      TrimLeftPadded(a + b, "");
      assert a + v + b == a + b + "";
    } else {
      TrimLeftPadded(a, v + b);
      assert a + v + b == a + (v + b);
      TrimRightPadded(v, b);
    }
  }

  lemma TrimBetween(line: string, lo: nat, from: nat, to: nat)
    requires lo <= from <= to <= |line|
    requires forall k :: lo <= k < from || to <= k < |line| ==> IsSpace(line[k])
    requires Trimmed(line[from..to])
    ensures Trim(line[lo..]) == line[from..to]
  {
    TrimPadded(line[lo..from], line[from..to], line[to..]);
    assert line[lo..] == line[lo..from] + line[from..to] + line[to..];
  }

  /** Trimming is idempotent: its result is trimmed. */
  lemma TrimTrims(s: string)
    ensures Trimmed(Trim(s))
  {
    var l := TrimLeft(s);
    var r := TrimRight(l);
  }

  /** The printed decimal form of a natural number. */
  function Decimal(n: nat): (s: string)
    ensures s != "" && forall k :: 0 <= k < |s| ==> '0' <= s[k] <= '9'
  {
    if n < 10 then [Digit(n)] else Decimal(n / 10) + [Digit(n % 10)]
  }

  function Digit(n: nat): (c: char)
    requires n < 10
    ensures '0' <= c <= '9'
  {
    '0' + n as char
  }

  function Pow10(k: nat): (p: nat)
    ensures p > 0
  {
    if k == 0 then 1 else 10 * Pow10(k - 1)
  }

  /** How many digits are printed. */
  lemma {:induction false} DecimalWidth(n: nat, k: nat)
    requires k > 0
    ensures |Decimal(n)| <= k <==> n < Pow10(k)
  {
    if k == 1 {
      assert Pow10(1) == 10 * Pow10(0);
      if n >= 10 { assert |Decimal(n / 10)| >= 1; }
    } else if n < 10 {
      assert Pow10(k) == 10 * Pow10(k - 1);
    } else {
      DecimalWidth(n / 10, k - 1);
      assert n / 10 < Pow10(k - 1) <==> n < 10 * Pow10(k - 1);
    }
  }
}
