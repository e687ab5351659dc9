/**
 * The two pieces of the Python runtime that shape the capture paths:
 * `str` applied to an integer, and `os.path.join` on POSIX.
 */
module PyStrings {

  function Digit(d: nat): (c: char)
    requires d < 10
    ensures '0' <= c <= '9'
  {
    (48 + d) as char
  }

  /** Decimal digits of a natural number, most significant first, no leading zeros. */
  function NatToString(n: nat): (s: string)
    ensures |s| >= 1
    ensures forall i :: 0 <= i < |s| ==> '0' <= s[i] <= '9'
    ensures (n < 10) == (|s| == 1)
    ensures s[0] == '0' ==> n == 0
  {
    if n < 10 then [Digit(n)] else NatToString(n / 10) + [Digit(n % 10)]
  }

  /** `str(i)` for a Python int: a minus sign for a negative number, then the digits of the
      magnitude. */
  function IntToString(i: int): (s: string)
    ensures |s| >= 1
    ensures s[0] == '-' || '0' <= s[0] <= '9'
    ensures forall k :: 1 <= k < |s| ==> '0' <= s[k] <= '9'
    ensures (s[0] == '-') == (i < 0)
    ensures i >= 0 ==> s == NatToString(i)
  {
    if i < 0 then "-" + NatToString(-i) else NatToString(i)
  }

  /** The number a string of decimal digits denotes, read left to right. */
  function DecimalValue(digits: string): int
    decreases |digits|
  {
    if digits == [] then 0
    else 10 * DecimalValue(digits[..|digits| - 1]) + (digits[|digits| - 1] as int - '0' as int)
  }

  /** The digits printed for `n` denote `n`. */
  lemma {:induction false} NatToStringValue(n: nat)
    ensures DecimalValue(NatToString(n)) == n
  {
    if n >= 10 {
      var s, q, r := NatToString(n), n / 10, n % 10;
      assert s == NatToString(q) + [Digit(r)];
      assert s[..|s| - 1] == NatToString(q) && s[|s| - 1] as int - '0' as int == r;
      NatToStringValue(q);
    }
  }

  /** The digits of `str(i)`, after the sign of a negative number, denote the magnitude of `i`. */
  lemma IntToStringValue(i: int)
    ensures i >= 0 ==> DecimalValue(IntToString(i)) == i
    ensures i < 0 ==> DecimalValue(IntToString(i)[1..]) == -i
  {
    var m: nat := if i < 0 then -i else i;
    var digits := NatToString(m);
    NatToStringValue(m);
    if i < 0 {
      assert ("-" + digits)[1..] == digits;
    }
  }

  /** Different numbers are printed differently. */
  lemma {:induction false} NatToStringInjective(m: nat, n: nat)
    requires NatToString(m) == NatToString(n)
    ensures m == n
  {
    var s, t := NatToString(m), NatToString(n);
    if m < 10 || n < 10 {
      assert |s| == 1 && |t| == 1;
      assert m < 10 && n < 10;
    } else {
      assert s[|s| - 1] == Digit(m % 10) && t[|t| - 1] == Digit(n % 10);
      assert s[..|s| - 1] == NatToString(m / 10);
      assert t[..|t| - 1] == NatToString(n / 10);
      NatToStringInjective(m / 10, n / 10);
    }
  }

  /** `str` is injective on all integers: the sign and the digits are both recovered. */
  lemma IntToStringInjective(i: int, j: int)
    requires IntToString(i) == IntToString(j)
    ensures i == j
  {
    var s, t := IntToString(i), IntToString(j);
    if i < 0 && j < 0 {
      assert s[1..] == NatToString(-i) && t[1..] == NatToString(-j);
      NatToStringInjective(-i, -j);
    } else if i >= 0 && j >= 0 {
      NatToStringInjective(i, j);
    }
  }

  /** One step of `posixpath.join`: an absolute segment replaces the path built so far;
      otherwise a '/' is inserted unless the path is empty or already ends with one. */
  function JoinTwo(path: string, b: string): string {
    if |b| > 0 && b[0] == '/' then b
    else if path == [] || path[|path| - 1] == '/' then path + b
    else path + "/" + b
  }

  /** `os.path.join(a, *p)`: the segments are joined left to right. */
  function Join(a: string, p: seq<string>): string
    decreases |p|
  {
    if p == [] then a else Join(JoinTwo(a, p[0]), p[1..])
  }

  lemma {:induction false} JoinAppend(a: string, p: seq<string>, q: seq<string>)
    ensures Join(a, p + q) == Join(Join(a, p), q)
    decreases |p|
  {
    if p == [] {
      assert p + q == q;
    } else {
      assert (p + q)[0] == p[0] && (p + q)[1..] == p[1..] + q;
      JoinAppend(JoinTwo(a, p[0]), p[1..], q);
    }
  }

  /** What `os.path.join` puts between a path and the next relative segment. */
  function Separator(path: string): string {
    if path == [] || path[|path| - 1] == '/' then "" else "/"
  }

  lemma JoinTwoRelative(path: string, b: string)
    requires |b| > 0 && b[0] != '/'
    ensures JoinTwo(path, b) == path + Separator(path) + b
  {
  }

  lemma JoinPair(a: string, b: string, c: string)
    ensures Join(a, [b, c]) == JoinTwo(JoinTwo(a, b), c)
  {
    assert [b, c][1..] == [c];
    assert [c][1..] == [];
    calc {
      Join(a, [b, c]);
      Join(JoinTwo(a, b), [c]);
      Join(JoinTwo(JoinTwo(a, b), c), []);
    }
  }

  /** An empty segment adds nothing once the next segment is joined: it leaves at most a
      trailing '/' that the next step would have inserted anyway. */
  lemma JoinSkipsEmpty(path: string, b: string)
    ensures JoinTwo(JoinTwo(path, ""), b) == JoinTwo(path, b)
  {
  }

  /** Joining a folder named `stem + num` and then a file onto `dir`, when none of them
      starts a new absolute path and the folder does not end in '/'. */
  lemma JoinNumberedFolder(dir: string, stem: string, num: string, file: string)
    requires |stem| > 0 && stem[0] != '/'
    requires |num| > 0 && num[|num| - 1] != '/'
    requires |file| > 0 && file[0] != '/'
    ensures JoinTwo(JoinTwo(dir, stem + num), file) == (dir + Separator(dir) + stem) + (num + "/" + file)
  {
    var folder := stem + num;
    JoinTwoRelative(dir, folder);
    var d := dir + Separator(dir) + folder;
    assert d[|d| - 1] == num[|num| - 1];
    JoinTwoRelative(d, file);
    assert d + "/" + file == (dir + Separator(dir) + stem) + (num + "/" + file);
  }

  lemma SlashAfter(a: string, b: string)
    ensures (a + "/" + b)[|a|] == '/'
  {
  }

  /** Splitting at the first '/' is unique. */
  lemma SplitAtSlash(a: string, b: string, c: string, d: string)
    requires forall i :: 0 <= i < |a| ==> a[i] != '/'
    requires forall i :: 0 <= i < |c| ==> c[i] != '/'
    requires a + "/" + b == c + "/" + d
    ensures a == c && b == d
  {
    var x, y := a + "/" + b, c + "/" + d;
    if |a| < |c| {
      SlashAfter(a, b);
      assert false;
    } else if |c| < |a| {
      SlashAfter(c, d);
      assert false;
    }
    assert a == x[..|a|] && c == y[..|c|];
    assert b == x[|a| + 1..] && d == y[|c| + 1..];
  }

  /** Behind a common head, a slash-free name and the rest after its '/' are recovered. */
  lemma SplitAfterHead(head: string, a: string, b: string, c: string, d: string)
    requires forall i :: 0 <= i < |a| ==> a[i] != '/'
    requires forall i :: 0 <= i < |c| ==> c[i] != '/'
    requires head + (a + "/" + b) == head + (c + "/" + d)
    ensures a == c && b == d
  {
    assert a + "/" + b == (head + (a + "/" + b))[|head|..];
    assert c + "/" + d == (head + (c + "/" + d))[|head|..];
    SplitAtSlash(a, b, c, d);
  }
}
