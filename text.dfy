/** The few pieces of Go's `strings` package and of `fmt`'s `%d` that the bot relies on. */
module Text {

  /** `strings.Join`: the elements in order, separated by `sep`. */
  function Join(xs: seq<string>, sep: string): (r: string)
    ensures |xs| == 0 ==> r == ""
    ensures |xs| == 1 ==> r == xs[0]
    ensures |xs| > 0 ==> |xs[0]| <= |r| && r[..|xs[0]|] == xs[0]
  {
    if |xs| == 0 then ""
    else if |xs| == 1 then xs[0]
    else xs[0] + sep + Join(xs[1..], sep)
  }

  /** Appending one more piece appends the separator and that piece: `Join` read from the back. */
  lemma {:induction false} JoinSnoc(xs: seq<string>, x: string, sep: string)
    requires |xs| > 0
    ensures Join(xs + [x], sep) == Join(xs, sep) + sep + x
  {
    if |xs| > 1 {
      JoinSnoc(xs[1..], x, sep);
      assert (xs + [x])[1..] == xs[1..] + [x];
    } else {
      assert (xs + [x])[1..] == [x];
    }
  }

  /** The length of a join: every piece, and one separator between each two. */
  lemma {:induction false} JoinLength(xs: seq<string>, sep: string)
    requires |xs| > 0
    ensures |Join(xs, sep)| == TotalLength(xs) + (|xs| - 1) * |sep|
  {
    if |xs| > 1 {
      JoinLength(xs[1..], sep);
    }
  }

  /** The summed length of the pieces. */
  function TotalLength(xs: seq<string>): nat {
    if xs == [] then 0 else |xs[0]| + TotalLength(xs[1..])
  }

  /** `strings.HasPrefix`. */
  predicate HasPrefix(s: string, prefix: string) {
    |prefix| <= |s| && s[..|prefix|] == prefix
  }

  lemma PrefixTransitive(s: string, p: string, q: string)
    requires HasPrefix(s, p) && HasPrefix(p, q)
    ensures HasPrefix(s, q)
  {
    assert s[..|q|] == s[..|p|][..|q|];
  }

  /** `strings.Contains`: `sub` occurs somewhere in `s`. */
  predicate Contains(s: string, sub: string) {
    exists i :: 0 <= i <= |s| - |sub| && OccursAt(s, sub, i)
  }

  /** A string contains every infix of it. */
  lemma ContainsInfix(a: string, sub: string, b: string)
    ensures Contains(a + sub + b, sub)
  {
    assert (a + sub + b)[|a|..|a| + |sub|] == sub;
    assert OccursAt(a + sub + b, sub, |a|);
  }

  /** An infix of an infix is an infix. */
  lemma ContainsTransitive(a: string, b: string, c: string)
    requires Contains(a, b) && Contains(b, c)
    ensures Contains(a, c)
  {
    var i :| 0 <= i <= |a| - |b| && OccursAt(a, b, i);
    var j :| 0 <= j <= |b| - |c| && OccursAt(b, c, j);
    forall t | 0 <= t < |c| ensures a[i + j + t] == c[t] {
      assert a[i + j + t] == a[i..i + |b|][j + t];
      assert b[j + t] == b[j..j + |c|][t];
    }
    assert a[i + j..i + j + |c|] == c;
    assert OccursAt(a, c, i + j);
  }

  /** A string of seven parts contains its three middle runs and ends with its last two parts. */
  lemma SevenParts(p1: string, p2: string, p3: string, p4: string, p5: string, p6: string, p7: string)
    ensures Contains(p1 + p2 + p3 + p4 + p5 + p6 + p7, p2 + p3 + p4)
    ensures Contains(p1 + p2 + p3 + p4 + p5 + p6 + p7, p4 + p5 + p6)
    ensures Contains(p1 + p2 + p3 + p4 + p5 + p6 + p7, p6 + p7 + "")
    ensures var s := p1 + p2 + p3 + p4 + p5 + p6 + p7; |p6 + p7| <= |s| && s[|s| - |p6 + p7|..] == p6 + p7
  {
    var s := p1 + p2 + p3 + p4 + p5 + p6 + p7;
    assert s == p1 + (p2 + p3 + p4) + (p5 + p6 + p7);
    ContainsInfix(p1, p2 + p3 + p4, p5 + p6 + p7);
    assert s == (p1 + p2 + p3) + (p4 + p5 + p6) + p7;
    ContainsInfix(p1 + p2 + p3, p4 + p5 + p6, p7);
    assert s == (p1 + p2 + p3 + p4 + p5) + (p6 + p7 + "") + "";
    ContainsInfix(p1 + p2 + p3 + p4 + p5, p6 + p7 + "", "");
  }

  /** Every piece of a list that occurs joined in `s` occurs in `s`. */
  lemma JoinedPiecesContained(s: string, pre: string, xs: seq<string>, sep: string, post: string)
    requires Contains(s, pre + Join(xs, sep) + post)
    ensures forall k :: 0 <= k < |xs| ==> Contains(s, xs[k])
  {
    forall k | 0 <= k < |xs| ensures Contains(s, xs[k]) {
      JoinContains(xs, sep, k);
      ContainsInfix(pre, Join(xs, sep), post);
      ContainsTransitive(pre + Join(xs, sep) + post, Join(xs, sep), xs[k]);
      ContainsTransitive(s, pre + Join(xs, sep) + post, xs[k]);
    }
  }

  /** Every piece occurs in the joined string. */
  lemma {:induction false} JoinContains(xs: seq<string>, sep: string, k: nat)
    requires k < |xs|
    ensures Contains(Join(xs, sep), xs[k])
  {
    if |xs| == 1 {
      ContainsInfix("", xs[0], "");
      assert "" + xs[0] + "" == xs[0];
    } else if k == 0 {
      ContainsInfix("", xs[0], sep + Join(xs[1..], sep));
      assert "" + xs[0] + (sep + Join(xs[1..], sep)) == Join(xs, sep);
    } else {
      JoinContains(xs[1..], sep, k - 1);
      ContainsInfix(xs[0] + sep, Join(xs[1..], sep), "");
      assert xs[0] + sep + Join(xs[1..], sep) + "" == Join(xs, sep);
      ContainsTransitive(Join(xs, sep), Join(xs[1..], sep), xs[k]);
    }
  }

  /** `sub` occurs in `s` starting at index `i`. */
  predicate OccursAt(s: string, sub: string, i: int)
    requires 0 <= i <= |s| - |sub|
  {
    s[i..i + |sub|] == sub
  }

  /** Go's `unicode.IsSpace`, the test `strings.TrimSpace` trims by. */
  predicate IsSpace(c: char) {
    c == '\t' || c == '\n' || c == '\U{0B}' || c == '\U{0C}' || c == '\r' || c == ' '
    || c == '\U{85}' || c == '\U{A0}' || c == '\U{1680}'
    || ('\U{2000}' <= c <= '\U{200A}')
    || c == '\U{2028}' || c == '\U{2029}' || c == '\U{202F}' || c == '\U{205F}' || c == '\U{3000}'
  }

  /** Every character of `s` is white space (in particular, the empty string). */
  predicate Blank(s: string) {
    forall k :: 0 <= k < |s| ==> IsSpace(s[k])
  }

  /** Drops the leading white space. */
  function TrimLeft(s: string): (r: string)
    ensures |r| <= |s| && r == s[|s| - |r|..]
    ensures Blank(s[..|s| - |r|])
    ensures r == [] || !IsSpace(r[0])
  {
    if |s| > 0 && IsSpace(s[0]) then
      var r := TrimLeft(s[1..]);
      assert s[..|s| - |r|] == [s[0]] + s[1..][..|s| - 1 - |r|];
      r
    else s
  }

  /** Drops the trailing white space. */
  function TrimRight(s: string): (r: string)
    ensures |r| <= |s| && r == s[..|r|]
    ensures Blank(s[|r|..])
    ensures r == [] || !IsSpace(r[|r| - 1])
  {
    if |s| > 0 && IsSpace(s[|s| - 1]) then
      var r := TrimRight(s[..|s| - 1]);
      assert s[|r|..] == s[..|s| - 1][|r|..] + [s[|s| - 1]];
      BlankConcat(s[..|s| - 1][|r|..], [s[|s| - 1]]);
      r
    else s
  }

  /** `strings.TrimSpace`: empty exactly when `s` holds nothing but white space. */
  function TrimSpace(s: string): (r: string)
    ensures r == [] <==> Blank(s)
    ensures r != [] ==> !IsSpace(r[0]) && !IsSpace(r[|r| - 1])
  {
    var l := TrimLeft(s);
    assert s == s[..|s| - |l|] + l;
    BlankConcat(s[..|s| - |l|], l);
    TrimRight(l)
  }

  lemma BlankConcat(a: string, b: string)
    ensures Blank(a + b) <==> Blank(a) && Blank(b)
  {
    if Blank(a) && Blank(b) {
      forall k | 0 <= k < |a + b| ensures IsSpace((a + b)[k]) {
        if k < |a| { assert (a + b)[k] == a[k]; } else { assert (a + b)[k] == b[k - |a|]; }
      }
    }
    if Blank(a + b) {
      forall k | 0 <= k < |a| ensures IsSpace(a[k]) { assert (a + b)[k] == a[k]; }
      forall k | 0 <= k < |b| ensures IsSpace(b[k]) { assert (a + b)[|a| + k] == b[k]; }
    }
  }

  /** Every piece is white space. */
  predicate AllBlank(xs: seq<string>) {
    forall k :: 0 <= k < |xs| ==> Blank(xs[k])
  }

  /** A joined string is blank exactly when every piece is, provided the separator is blank. */
  lemma {:induction false} JoinBlank(xs: seq<string>, sep: string)
    requires Blank(sep)
    ensures Blank(Join(xs, sep)) <==> AllBlank(xs)
  {
    if |xs| > 1 {
      JoinBlank(xs[1..], sep);
      BlankConcat(xs[0], sep);
      BlankConcat(xs[0] + sep, Join(xs[1..], sep));
      assert forall k :: 1 <= k < |xs| ==> xs[k] == xs[1..][k - 1];
    }
  }

  /** The digit character of a value below ten. */
  function DigitChar(d: nat): (c: char)
    requires d < 10
    ensures '0' <= c <= '9' && (c as int) - ('0' as int) == d
  {
    (('0' as int) + d) as char
  }

  predicate AllDigits(s: string) {
    forall k :: 0 <= k < |s| ==> '0' <= s[k] <= '9'
  }

  /** The number a string of decimal digits denotes. */
  function DecimalValue(s: string): nat
    requires AllDigits(s)
  {
    if s == [] then 0 else DecimalValue(s[..|s| - 1]) * 10 + ((s[|s| - 1] as int) - ('0' as int))
  }

  /** `fmt.Sprintf("%d", n)` for a non-negative `n`: the digits of `n`, no leading zero. */
  function NatToString(n: nat): (r: string)
    ensures |r| >= 1 && AllDigits(r)
    ensures DecimalValue(r) == n
    ensures r[0] == '0' ==> n == 0
    decreases n
  {
    if n < 10 then [DigitChar(n)]
    else
      var p := NatToString(n / 10);
      var r := p + [DigitChar(n % 10)];
      assert r[..|r| - 1] == p;
      r
  }

}
