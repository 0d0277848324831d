/**
 * The .NET string operations the chat core relies on: `String.Trim()`,
 * `String.Split(' ')`, `String.Join(" ", …)`, `Enumerable.Take` and the decimal
 * formatting of an `int` inside an interpolated string.
 */
module Text {

  /** `char.IsWhiteSpace`: the Unicode space, line and paragraph separators, and U+0009..U+000D, U+0085. */
  predicate IsWhiteSpace(c: char)
  {
    || c == ' '
    || ('\t' <= c <= '\r')
    || c == '\U{85}'
    || c == '\U{A0}'
    || c == '\U{1680}'
    || ('\U{2000}' <= c <= '\U{200A}')
    || c == '\U{2028}'
    || c == '\U{2029}'
    || c == '\U{202F}'
    || c == '\U{205F}'
    || c == '\U{3000}'
  }

  /** Neither end of `s` is white space. */
  predicate IsTrimmed(s: string)
  {
    s != [] ==> !IsWhiteSpace(s[0]) && !IsWhiteSpace(s[|s| - 1])
  }

  /** The first position at or after `i` that is not white space (or the end). */
  function SkipWhiteSpace(s: string, i: nat): (j: nat)
    requires i <= |s|
    ensures i <= j <= |s|
    ensures forall k :: i <= k < j ==> IsWhiteSpace(s[k])
    ensures j < |s| ==> !IsWhiteSpace(s[j])
    decreases |s| - i
  {
    if i < |s| && IsWhiteSpace(s[i]) then SkipWhiteSpace(s, i + 1) else i
  }

  /** The end of `s[lo..hi]` once its trailing white space is dropped. */
  function SkipWhiteSpaceBack(s: string, lo: nat, hi: nat): (j: nat)
    requires lo <= hi <= |s|
    ensures lo <= j <= hi
    ensures forall k :: j <= k < hi ==> IsWhiteSpace(s[k])
    ensures j > lo ==> !IsWhiteSpace(s[j - 1])
    decreases hi - lo
  {
    if lo < hi && IsWhiteSpace(s[hi - 1]) then SkipWhiteSpaceBack(s, lo, hi - 1) else hi
  }

  /**
   * `String.Trim()`: the result is the slice of `s` that starts after its leading
   * white space and is followed only by white space, and it neither starts nor
   * ends with white space.
   */
  function Trim(s: string): (r: string)
    ensures var a := SkipWhiteSpace(s, 0);
      && a + |r| <= |s|
      && r == s[a..a + |r|]
      && (forall k :: 0 <= k < a ==> IsWhiteSpace(s[k]))
      && (forall k :: a + |r| <= k < |s| ==> IsWhiteSpace(s[k]))
    ensures IsTrimmed(r)
  {
    var a := SkipWhiteSpace(s, 0);
    s[a..SkipWhiteSpaceBack(s, a, |s|)]
  }

  /** Trimming text that is already trimmed changes nothing; in particular Trim is idempotent. */
  lemma TrimTrimmed(s: string)
    requires IsTrimmed(s)
    ensures Trim(s) == s
  {
  }

  /** The number of spaces in `s`. */
  function SpaceCount(s: string): nat
  {
    multiset(s)[' ']
  }

  /**
   * `s.Split(' ')`: the segments between single spaces, empty segments included;
   * there is at least one, and no segment holds a space.
   */
  function Split(s: string): (parts: seq<string>)
    ensures |parts| >= 1
    ensures forall p :: p in parts ==> ' ' !in p
    decreases |s|
  {
    if s == [] then [""]
    else
      var rest := Split(s[1..]);
      assert s == [s[0]] + s[1..];
      if s[0] == ' ' then [""] + rest
      else [[s[0]] + rest[0]] + rest[1..]
  }

  /** There is always one more segment than there are spaces. */
  lemma {:induction false} SplitCount(s: string)
    ensures |Split(s)| == SpaceCount(s) + 1
    decreases |s|
  {
    if s != [] {
      SplitCount(s[1..]);
      assert s == [s[0]] + s[1..];
      assert multiset(s) == multiset{s[0]} + multiset(s[1..]);
    }
  }

  /** `String.Join(" ", parts)`. */
  function Join(parts: seq<string>): string
  {
    if |parts| == 0 then ""
    else if |parts| == 1 then parts[0]
    else parts[0] + " " + Join(parts[1..])
  }

  /** The number of space-separated segments, as `text.Split(' ').Length` counts them. */
  function WordCount(s: string): nat
  {
    |Split(s)|
  }

  /** Joining the segments of a split gives back the text. */
  lemma {:induction false} JoinSplit(s: string)
    ensures Join(Split(s)) == s
    decreases |s|
  {
    if s != [] {
      var tail := s[1..];
      JoinSplit(tail);
      var rest := Split(tail);
      assert s == [s[0]] + tail;
      if s[0] == ' ' {
        JoinAfterSpace(rest);
      } else {
        JoinAfterChar(s[0], rest);
      }
    }
  }

  /** A text starting with a space: an empty first segment, then the rest. */
  lemma JoinAfterSpace(rest: seq<string>)
    requires |rest| >= 1
    ensures Join([""] + rest) == " " + Join(rest)
  {
    var parts := [""] + rest;
    assert parts[1..] == rest;
  }

  /** A text starting with another character: it goes at the front of the first segment. */
  lemma JoinAfterChar(c: char, rest: seq<string>)
    requires |rest| >= 1
    ensures Join([[c] + rest[0]] + rest[1..]) == [c] + Join(rest)
  {
    if |rest| == 1 {
      assert [[c] + rest[0]] + rest[1..] == [[c] + rest[0]];
    } else {
      JoinCons([c] + rest[0], rest[1..]);
      JoinCons(rest[0], rest[1..]);
      assert rest == [rest[0]] + rest[1..];
      ConcatAssoc([c], rest[0], " ", Join(rest[1..]));
    }
  }

  lemma ConcatAssoc<T>(p: seq<T>, q: seq<T>, r: seq<T>, s: seq<T>)
    ensures p + q + r + s == p + (q + r + s)
  {
  }

  /** Joining a segment in front of at least one more puts a space between. */
  lemma JoinCons(head: string, more: seq<string>)
    requires |more| >= 1
    ensures Join([head] + more) == head + " " + Join(more)
  {
    assert ([head] + more)[1..] == more;
  }

  lemma {:induction false} SplitNoSpace(a: string)
    requires ' ' !in a
    ensures Split(a) == [a]
    decreases |a|
  {
    if a != [] {
      assert ' ' !in a[1..] by { assert forall c :: c in a[1..] ==> c in a; }
      SplitNoSpace(a[1..]);
      assert a == [a[0]] + a[1..];
    }
  }

  lemma {:induction false} SplitAtSpace(a: string, b: string)
    requires ' ' !in a
    ensures Split(a + " " + b) == [a] + Split(b)
    decreases |a|
  {
    var s := a + " " + b;
    if a == [] {
      assert s == " " + b;
      assert s[1..] == b;
    } else {
      assert ' ' !in a[1..] by { assert forall c :: c in a[1..] ==> c in a; }
      SplitAtSpace(a[1..], b);
      assert s[1..] == a[1..] + " " + b;
      assert [a[0]] + a[1..] == a;
    }
  }

  /** Splitting the join of space-free segments gives the segments back. */
  lemma {:induction false} SplitJoin(parts: seq<string>)
    requires |parts| >= 1
    requires forall p :: p in parts ==> ' ' !in p
    ensures Split(Join(parts)) == parts
    decreases |parts|
  {
    if |parts| == 1 {
      SplitNoSpace(parts[0]);
    } else {
      assert parts[0] in parts;
      assert forall p :: p in parts[1..] ==> p in parts;
      SplitJoin(parts[1..]);
      SplitAtSpace(parts[0], Join(parts[1..]));
      assert parts == [parts[0]] + parts[1..];
    }
  }

  /** `Enumerable.Take(parts, n)`: nothing when n <= 0, everything when n exceeds the length. */
  function Take<T>(parts: seq<T>, n: int): (r: seq<T>)
    ensures |r| == if n <= 0 then 0 else if n < |parts| then n else |parts|
    ensures r == parts[..|r|]
  {
    if n <= 0 then [] else if n >= |parts| then parts else parts[..n]
  }

  /** The first `n` space-separated segments of `s`, rejoined with single spaces. */
  function TakeWords(s: string, n: int): string
  {
    Join(Take(Split(s), n))
  }

  lemma {:induction false} JoinPrefix(parts: seq<string>, k: nat)
    requires k <= |parts|
    ensures Join(parts[..k]) <= Join(parts)
    decreases k
  {
    if k > 1 {
      JoinPrefix(parts[1..], k - 1);
      assert parts[..k][1..] == parts[1..][..k - 1];
    } else if k == 1 && |parts| > 1 {
      assert parts[..1] == [parts[0]];
    }
  }

  /**
   * The word budget: with a budget of at least one, the result's segments are
   * exactly the first min(n, WordCount(s)) segments of `s`; with a budget of zero
   * or less it is empty. In every case it is a prefix of `s`, and `s` itself when
   * it fits the budget.
   */
  lemma TakeWordsBound(s: string, n: int)
    ensures n >= 1 ==> Split(TakeWords(s, n)) == Take(Split(s), n)
    ensures n >= 1 ==> WordCount(TakeWords(s, n)) == if n < WordCount(s) then n else WordCount(s)
    ensures n <= 0 ==> TakeWords(s, n) == ""
    ensures TakeWords(s, n) <= s
    ensures WordCount(s) <= n ==> TakeWords(s, n) == s
  {
    var parts := Split(s);
    var kept := Take(parts, n);
    JoinSplit(s);
    JoinPrefix(parts, |kept|);
    if n >= 1 {
      assert forall p :: p in kept ==> p in parts;
      SplitJoin(kept);
    }
    if WordCount(s) <= n {
      assert kept == parts;
    }
  }

  /** The decimal digits of `n`, most significant first, with no leading zero. */
  function NatToString(n: nat): (r: string)
    ensures |r| >= 1
    ensures forall i :: 0 <= i < |r| ==> '0' <= r[i] <= '9'
    ensures (n >= 1 || |r| > 1) ==> r[0] != '0'
  {
    var d := [('0' as int + n % 10) as char];
    if n < 10 then d else NatToString(n / 10) + d
  }

  /** An `int` as C# formats it in an interpolated string: an optional minus sign, then the digits. */
  function IntToString(n: int): (r: string)
    ensures |r| >= 1 && (r[0] == '-' <==> n < 0)
    ensures forall i :: (if n < 0 then 1 else 0) <= i < |r| ==> '0' <= r[i] <= '9'
    ensures |r| > (if n < 0 then 2 else 1) ==> r[if n < 0 then 1 else 0] != '0'
  {
    if n < 0 then "-" + NatToString(-n) else NatToString(n)
  }

  /** The number a string of decimal digits denotes, most significant first. */
  function DecimalValue(s: string): nat
  {
    if |s| == 0 then 0
    else
      var d := s[|s| - 1] as int - '0' as int;
      DecimalValue(s[..|s| - 1]) * 10 + (if 0 <= d then d else 0)
  }

  /** Reading back the digits of `n` gives `n`. */
  lemma {:induction false} NatToStringValue(n: nat)
    ensures DecimalValue(NatToString(n)) == n
  {
    var s := NatToString(n);
    var d := [('0' as int + n % 10) as char];
    if n >= 10 {
      NatToStringValue(n / 10);
      assert s[..|s| - 1] == NatToString(n / 10);
    }
    assert s[|s| - 1] == d[0];
  }

  /** Reading back the formatted int gives its magnitude, and the sign says whether it was negative. */
  lemma IntToStringValue(n: int)
    ensures var r := IntToString(n);
      (if r[0] == '-' then -(DecimalValue(r[1..]) as int) else DecimalValue(r) as int) == n
  {
    if n < 0 {
      var digits := NatToString(-n);
      assert IntToString(n) == "-" + digits;
      assert ("-" + digits)[1..] == digits;
      NatToStringValue(-n);
    } else {
      NatToStringValue(n);
    }
  }
}
