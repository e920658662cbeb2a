/** String operations the JavaScript code relies on: `Array.prototype.join`,
    splitting on a separator character, and the decimal rendering of a
    non-negative integer inside a template literal. */
module Text {

  /** `parts.join(sep)`: the parts in order with `sep` between neighbours;
      the empty array joins to the empty string. */
  function Join(parts: seq<string>, sep: string): string
  {
    if |parts| == 0 then ""
    else if |parts| == 1 then parts[0]
    else parts[0] + sep + Join(parts[1..], sep)
  }

  /** Index at which part `i` starts inside Join(parts, sep). */
  function Offset(parts: seq<string>, sep: string, i: nat): nat
    requires i < |parts|
  {
    if i == 0 then 0 else |parts[0]| + |sep| + Offset(parts[1..], sep, i - 1)
  }

  /** A slice of `r` stays the same slice after a prefix is put in front. */
  lemma SliceShift(a: string, r: string, k: nat, n: nat)
    requires k + n <= |r|
    ensures (a + r)[|a| + k..|a| + k + n] == r[k..k + n]
  {
    var u, v := (a + r)[|a| + k..|a| + k + n], r[k..k + n];
    forall j | 0 <= j < n
      ensures u[j] == v[j]
    {
      assert u[j] == (a + r)[|a| + k + j];
    }
  }

  /** Join(parts, sep) holds part `i` at Offset(parts, sep, i). */
  lemma {:induction false} JoinAt(parts: seq<string>, sep: string, i: nat)
    requires i < |parts|
    ensures Offset(parts, sep, i) + |parts[i]| <= |Join(parts, sep)|
    ensures Join(parts, sep)[Offset(parts, sep, i)..Offset(parts, sep, i) + |parts[i]|] == parts[i]
  {
    if |parts| == 1 {
    } else if i == 0 {
      var j := Join(parts, sep);
      assert j == parts[0] + (sep + Join(parts[1..], sep));
      assert j[..|parts[0]|] == parts[0];
    } else {
      var rest := Join(parts[1..], sep);
      JoinAt(parts[1..], sep, i - 1);
      assert parts[1..][i - 1] == parts[i];
      assert Join(parts, sep) == parts[0] + sep + rest;
      SliceShift(parts[0] + sep, rest, Offset(parts[1..], sep, i - 1), |parts[i]|);
    }
  }

  /** Consecutive parts are one separator apart, and the separator sits
      between them. */
  lemma {:induction false} JoinSepAt(parts: seq<string>, sep: string, i: nat)
    requires i + 1 < |parts|
    ensures Offset(parts, sep, i + 1) == Offset(parts, sep, i) + |parts[i]| + |sep|
    ensures Offset(parts, sep, i + 1) <= |Join(parts, sep)|
    ensures Join(parts, sep)[Offset(parts, sep, i) + |parts[i]|..Offset(parts, sep, i + 1)] == sep
  {
    var rest := Join(parts[1..], sep);
    assert Join(parts, sep) == parts[0] + sep + rest;
    if i == 0 {
      assert (parts[0] + sep + rest)[|parts[0]|..|parts[0]| + |sep|] == sep by {
        assert (parts[0] + sep + rest)[..|parts[0]| + |sep|] == parts[0] + sep;
      }
    } else {
      JoinSepAt(parts[1..], sep, i - 1);
      assert parts[1..][i - 1] == parts[i];
      var o := Offset(parts[1..], sep, i - 1) + |parts[i]|;
      SliceShift(parts[0] + sep, rest, o, |sep|);
    }
  }

  /** The join ends with its last part. */
  lemma {:induction false} JoinEnd(parts: seq<string>, sep: string)
    requires |parts| >= 1
    ensures |Join(parts, sep)| == Offset(parts, sep, |parts| - 1) + |parts[|parts| - 1]|
  {
    if |parts| > 1 {
      JoinEnd(parts[1..], sep);
      assert parts[1..][|parts| - 2] == parts[|parts| - 1];
    }
  }

  /** Where part `i` of a join sits, what follows it, and where the join ends. */
  lemma JoinLayout(parts: seq<string>, sep: string, i: nat)
    requires i < |parts|
    ensures var at := Offset(parts, sep, i);
            && at + |parts[i]| <= |Join(parts, sep)|
            && Join(parts, sep)[at..at + |parts[i]|] == parts[i]
            && (i + 1 < |parts| ==>
                 Offset(parts, sep, i + 1) == at + |parts[i]| + |sep| &&
                 Offset(parts, sep, i + 1) <= |Join(parts, sep)| &&
                 Join(parts, sep)[at + |parts[i]|..Offset(parts, sep, i + 1)] == sep)
            && (i + 1 == |parts| ==> |Join(parts, sep)| == at + |parts[i]|)
  {
    JoinAt(parts, sep, i);
    if i + 1 < |parts| {
      JoinSepAt(parts, sep, i);
    } else {
      JoinEnd(parts, sep);
    }
  }

  /** The pieces of `base + c + sep + p + q1 + q2` can be cut back out:
      the prefix, the suffix, and what lies between. */
  lemma Frame(base: string, c: string, sep: string, p: string, q1: string, q2: string)
    ensures var u := base + c + sep + p + q1 + q2;
            && |u| >= |base| + |q1 + q2|
            && u[..|base|] == base
            && u[|u| - |q1 + q2|..] == q1 + q2
            && u[|base|..|u| - |q1 + q2|] == c + sep + p
  {
    var u := base + c + sep + p + q1 + q2;
    assert u == base + (c + sep + p) + (q1 + q2);
  }

  /** A piece found inside `t`, where `t` itself sits inside `s`, sits
      inside `s` at the sum of the two positions. */
  lemma NestedSlice(s: string, at: nat, t: string, k: nat, u: string)
    requires at + |t| <= |s| && s[at..at + |t|] == t
    requires k + |u| <= |t| && t[k..k + |u|] == u
    ensures at + k + |u| <= |s| && s[at + k..at + k + |u|] == u
  {
    var w := s[at + k..at + k + |u|];
    forall j | 0 <= j < |u|
      ensures w[j] == u[j]
    {
      assert s[at + k + j] == s[at..at + |t|][k + j];
      assert u[j] == t[k..k + |u|][j];
    }
  }

  /** A join sitting inside a larger string at `at` has its part `i` at
      `at` plus the part's offset. */
  lemma JoinPartInside(s: string, at: nat, parts: seq<string>, sep: string, i: nat)
    requires i < |parts|
    requires at + |Join(parts, sep)| <= |s| && s[at..at + |Join(parts, sep)|] == Join(parts, sep)
    ensures var k := at + Offset(parts, sep, i);
            k + |parts[i]| <= |s| && s[k..k + |parts[i]|] == parts[i]
  {
    JoinAt(parts, sep, i);
    NestedSlice(s, at, Join(parts, sep), Offset(parts, sep, i), parts[i]);
  }

  /** `s` holds every part of the join of `parts` at `at` plus the part's
      offset. */
  predicate ShowsParts(s: string, at: nat, parts: seq<string>, sep: string)
  {
    forall i :: 0 <= i < |parts| ==>
      var k := at + Offset(parts, sep, i);
      k + |parts[i]| <= |s| && s[k..k + |parts[i]|] == parts[i]
  }

  /** A join sitting inside a larger string shows all its parts there. */
  lemma JoinPartsInside(s: string, at: nat, parts: seq<string>, sep: string)
    requires at + |Join(parts, sep)| <= |s| && s[at..at + |Join(parts, sep)|] == Join(parts, sep)
    ensures ShowsParts(s, at, parts, sep)
  {
    forall i | 0 <= i < |parts|
      ensures var k := at + Offset(parts, sep, i);
              k + |parts[i]| <= |s| && s[k..k + |parts[i]|] == parts[i]
    {
      JoinPartInside(s, at, parts, sep, i);
    }
  }

  /** The join of five parts, written out. */
  lemma JoinFive(a: string, b: string, c: string, d: string, e: string, sep: string)
    ensures Join([a, b, c, d, e], sep) == a + sep + b + sep + c + sep + d + sep + e
  {
    var ls := [a, b, c, d, e];
    assert ls[1..][1..] == ls[2..] && ls[2..][1..] == ls[3..] && ls[3..][1..] == ls[4..];
    assert Join(ls[4..], sep) == e;
    assert Join(ls[3..], sep) == d + sep + e;
    assert Join(ls[2..], sep) == c + sep + Join(ls[3..], sep);
    assert Join(ls[1..], sep) == b + sep + Join(ls[2..], sep);
    assert Join(ls, sep) == a + sep + Join(ls[1..], sep);
  }

  /** Splits `s` at every occurrence of `c` (as `s.split(c)` does): the
      pieces contain no `c`, and there is always at least one piece. */
  function Split(s: string, c: char): (pieces: seq<string>)
    ensures |pieces| >= 1
    ensures forall k :: 0 <= k < |pieces| ==> c !in pieces[k]
  {
    if |s| == 0 then [""]
    else
      var rest := Split(s[1..], c);
      if s[0] == c then [""] + rest
      else [[s[0]] + rest[0]] + rest[1..]
  }

  /** Joining the pieces of a split with the separator gives back the string. */
  lemma {:induction false} JoinSplit(s: string, c: char)
    ensures Join(Split(s, c), [c]) == s
  {
    if |s| > 0 {
      var rest := Split(s[1..], c);
      JoinSplit(s[1..], c);
      if s[0] == c {
        assert Split(s, c) == [""] + rest;
        assert ([""] + rest)[1..] == rest;
        assert s == [c] + s[1..];
      } else {
        var pieces := [[s[0]] + rest[0]] + rest[1..];
        assert Split(s, c) == pieces;
        if |rest| == 1 {
          assert s == [s[0]] + s[1..];
        } else {
          assert pieces[1..] == rest[1..];
          assert Join(rest, [c]) == rest[0] + [c] + Join(rest[1..], [c]);
          assert s == [s[0]] + s[1..];
        }
      }
    }
  }

  /** Splitting `p + t` where `p` holds no separator glues `p` to the first
      piece of `t`. */
  lemma {:induction false} SplitPrefix(p: string, t: string, c: char)
    requires c !in p
    ensures Split(p + t, c) == [p + Split(t, c)[0]] + Split(t, c)[1..]
  {
    if |p| > 0 {
      SplitPrefix(p[1..], t, c);
      assert (p + t)[1..] == p[1..] + t;
      assert (p + t)[0] == p[0] != c;
      assert [p[0]] + (p[1..] + Split(t, c)[0]) == p + Split(t, c)[0];
    } else {
      var pieces := Split(t, c);
      assert p + t == t;
      assert p + pieces[0] == pieces[0];
      assert [pieces[0]] + pieces[1..] == pieces;
    }
  }

  /** A first piece free of the separator is cut off whole. */
  lemma SplitAtFirst(c: string, p: string, ch: char)
    requires ch !in c
    ensures Split(c + [ch] + p, ch) == [c] + Split(p, ch)
  {
    SplitPrefix(c, [ch] + p, ch);
    assert c + [ch] + p == c + ([ch] + p);
    assert ([ch] + p)[1..] == p;
    assert c + "" == c;
  }

  /** Splitting a join of separator-free parts gives back the parts. */
  lemma {:induction false} SplitJoin(parts: seq<string>, c: char)
    requires |parts| >= 1
    requires forall k :: 0 <= k < |parts| ==> c !in parts[k]
    ensures Split(Join(parts, [c]), c) == parts
  {
    if |parts| == 1 {
      SplitPrefix(parts[0], "", c);
      assert parts[0] + "" == parts[0];
    } else {
      var rest := Join(parts[1..], [c]);
      SplitJoin(parts[1..], c);
      SplitPrefix(parts[0], [c] + rest, c);
      assert Join(parts, [c]) == parts[0] + ([c] + rest);
      assert ([c] + rest)[1..] == rest;
      assert Split([c] + rest, c) == [""] + parts[1..];
      assert parts[0] + "" == parts[0];
      assert parts == [parts[0]] + parts[1..];
    }
  }

  predicate IsDigit(ch: char)
  {
    '0' <= ch <= '9'
  }

  function DigitChar(d: nat): (ch: char)
    requires d < 10
    ensures IsDigit(ch)
  {
    ('0' as int + d) as char
  }

  function DigitValue(ch: char): nat
  {
    if IsDigit(ch) then ch as int - '0' as int else 0
  }

  /** The decimal numeral of `n` as a JavaScript template literal renders an
      integral number: digits only, never empty, no leading zero. */
  function Decimal(n: nat): (r: string)
    ensures |r| >= 1
    ensures forall ch :: ch in r ==> IsDigit(ch)
    ensures r[0] == '0' ==> n == 0
  {
    if n < 10 then [DigitChar(n)] else Decimal(n / 10) + [DigitChar(n % 10)]
  }

  /** Reads a string of decimal digits as a number. */
  function ParseDecimal(s: string): nat
  {
    if |s| == 0 then 0 else ParseDecimal(s[..|s| - 1]) * 10 + DigitValue(s[|s| - 1])
  }

  /** Reading back a decimal numeral gives the number, so distinct numbers
      have distinct numerals. */
  lemma {:induction false} DecimalRoundTrip(n: nat)
    ensures ParseDecimal(Decimal(n)) == n
  {
    if n < 10 {
      assert Decimal(n)[..0] == "";
    } else {
      var d := Decimal(n);
      DecimalRoundTrip(n / 10);
      assert d[..|d| - 1] == Decimal(n / 10);
      assert d[|d| - 1] == DigitChar(n % 10);
    }
  }
}
