/** The few Python string operations the integration relies on:
    `str.startswith`, `str.split` on one character, `str.join`,
    `str.capitalize` (on ASCII text) and the decimal rendering of an `int`
    inside an f-string. */
module Text {

  predicate HasPrefix(s: string, prefix: string)
  {
    |prefix| <= |s| && s[..|prefix|] == prefix
  }

  /** `s.endswith(suffix)`. */
  predicate HasSuffix(s: string, suffix: string)
  {
    |suffix| <= |s| && s[|s| - |suffix|..] == suffix
  }

  /** `sep.join(parts)` for a one-character separator. */
  function Join(parts: seq<string>, sep: char): (s: string)
    ensures |parts| == 1 ==> s == parts[0]
  {
    if |parts| == 0 then ""
    else if |parts| == 1 then parts[0]
    else parts[0] + [sep] + Join(parts[1..], sep)
  }

  /** `s.split(sep)`: the pieces between the occurrences of `sep`, always at
      least one (`"".split("_") == [""]`). Joining them back gives `s`. */
  function Split(s: string, sep: char): (parts: seq<string>)
    ensures |parts| >= 1
    ensures forall i :: 0 <= i < |parts| ==> sep !in parts[i]
    ensures Join(parts, sep) == s
  {
    if |s| == 0 then [""]
    else
      var rest := Split(s[1..], sep);
      if s[0] == sep then [""] + rest
      else [[s[0]] + rest[0]] + rest[1..]
  }

  lemma {:induction false} SplitWithoutSeparator(s: string, sep: char)
    requires sep !in s
    ensures Split(s, sep) == [s]
  {
    if |s| > 0 {
      SplitWithoutSeparator(s[1..], sep);
      assert [s[0]] + s[1..] == s;
    }
  }

  lemma {:induction false} SplitAtSeparator(a: string, sep: char, t: string)
    requires sep !in a
    ensures Split(a + [sep] + t, sep) == [a] + Split(t, sep)
  {
    if |a| == 0 {
      assert a + [sep] + t == [sep] + t;
      assert ([sep] + t)[1..] == t;
    } else {
      SplitAtSeparator(a[1..], sep, t);
      assert (a + [sep] + t)[1..] == a[1..] + [sep] + t;
      assert [a[0]] + a[1..] == a;
    }
  }

  /** Splitting undoes joining when no part holds the separator. */
  lemma {:induction false} SplitJoin(parts: seq<string>, sep: char)
    requires |parts| >= 1
    requires forall i :: 0 <= i < |parts| ==> sep !in parts[i]
    ensures Split(Join(parts, sep), sep) == parts
  {
    if |parts| == 1 {
      SplitWithoutSeparator(parts[0], sep);
    } else {
      SplitJoin(parts[1..], sep);
      SplitAtSeparator(parts[0], sep, Join(parts[1..], sep));
      assert [parts[0]] + parts[1..] == parts;
    }
  }

  /** Three parts free of the separator, joined by it, split back into
      the same three. */
  lemma SplitThree(a: string, b: string, c: string, sep: char)
    requires sep !in a && sep !in b && sep !in c
    ensures Split(a + [sep] + b + [sep] + c, sep) == [a, b, c]
  {
    var bc := b + [sep] + c;
    SplitWithoutSeparator(c, sep);
    SplitAtSeparator(b, sep, c);
    assert Split(bc, sep) == [b, c];
    SplitAtSeparator(a, sep, bc);
    assert a + [sep] + b + [sep] + c == a + [sep] + bc;
  }

  /** A join of two or more parts starts with the first part and the
      separator. */
  lemma {:induction false} JoinHead(parts: seq<string>, sep: char)
    requires |parts| >= 2
    ensures HasPrefix(Join(parts, sep), parts[0] + [sep])
  {
    var s := Join(parts, sep);
    assert s == parts[0] + [sep] + Join(parts[1..], sep);
    assert s[..|parts[0]| + 1] == parts[0] + [sep];
  }

  /** A character outside every part, other than the separator, is
      outside their join. */
  lemma {:induction false} JoinAvoids(parts: seq<string>, sep: char, c: char)
    requires c != sep
    requires forall i :: 0 <= i < |parts| ==> c !in parts[i]
    ensures c !in Join(parts, sep)
  {
    if |parts| > 1 {
      JoinAvoids(parts[1..], sep, c);
    }
  }

  /** A character of a part is a character of the join. */
  lemma {:induction false} JoinContains(parts: seq<string>, sep: char, i: nat, c: char)
    requires i < |parts| && c in parts[i]
    ensures c in Join(parts, sep)
  {
    if |parts| > 1 && i > 0 {
      JoinContains(parts[1..], sep, i - 1, c);
    }
  }

  /** A string that ends with a separator and a tail free of it is split
      there unambiguously: equal such strings have equal heads and tails. */
  lemma LastSeparator(head1: string, tail1: string, head2: string, tail2: string, sep: char)
    requires sep !in tail1 && sep !in tail2
    requires head1 + [sep] + tail1 == head2 + [sep] + tail2
    ensures head1 == head2 && tail1 == tail2
  {
    var s := head1 + [sep] + tail1;
    forall k | |head1| < k < |s| ensures s[k] != sep {
      assert s[k] == tail1[k - |head1| - 1];
    }
    forall k | |head2| < k < |s| ensures s[k] != sep {
      assert s == head2 + [sep] + tail2;
      assert s[k] == tail2[k - |head2| - 1];
    }
    assert s[|head1|] == sep && s[|head2|] == sep;
    assert |head1| == |head2|;
    assert head1 == s[..|head1|] == head2;
    assert tail1 == s[|head1| + 1..] == tail2;
  }

  function Upper(c: char): char
  {
    if 'a' <= c <= 'z' then (c as int - 'a' as int + 'A' as int) as char else c
  }

  function Lower(c: char): char
  {
    if 'A' <= c <= 'Z' then (c as int - 'A' as int + 'a' as int) as char else c
  }

  /** `s.capitalize()` on ASCII text: the first character upper-cased, the
      rest lower-cased, and nothing but letters changed. */
  function Capitalize(s: string): (r: string)
    ensures |r| == |s|
    ensures |s| > 0 ==> r[0] == Upper(s[0])
    ensures forall i :: 0 < i < |s| ==> r[i] == Lower(s[i])
    ensures forall i :: 0 <= i < |s| ==> (r[i] == s[i] || 'A' <= r[i] <= 'Z' || 'a' <= r[i] <= 'z')
  {
    if |s| == 0 then ""
    else [Upper(s[0])] + seq(|s| - 1, i requires 0 <= i < |s| - 1 => Lower(s[i + 1]))
  }

  /** Capitalising adds no space. */
  lemma CapitalizeAvoidsSpace(s: string)
    requires ' ' !in s
    ensures ' ' !in Capitalize(s)
  {
    var r := Capitalize(s);
    forall i | 0 <= i < |r| ensures r[i] != ' ' {
      assert r[i] == s[i] || 'A' <= r[i] <= 'Z' || 'a' <= r[i] <= 'z';
    }
  }

  function Digit(d: int): char
    requires 0 <= d < 10
  {
    "0123456789"[d]
  }

  /** The decimal rendering Python gives an `int` (`str(n)`): an optional
      minus sign followed by digits, never a dot. */
  function IntToString(n: int): (s: string)
    ensures |s| >= 1
    ensures forall i :: 0 <= i < |s| ==> s[i] == '-' || '0' <= s[i] <= '9'
    ensures n >= 0 ==> '0' <= s[0] <= '9'
    decreases if n < 0 then 1 - n else n
  {
    if n < 0 then "-" + IntToString(-n)
    else if n < 10 then [Digit(n)]
    else IntToString(n / 10) + [Digit(n % 10)]
  }
}
