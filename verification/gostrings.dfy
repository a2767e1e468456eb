/** The few functions of Go's `strings` package the decoder relies on, for a
    one-character separator: Index, Split, Join, HasPrefix, TrimPrefix and
    TrimSuffix. */
module GoStrings {

  /** Number of occurrences of `c` in `s`. */
  function Count(s: string, c: char): nat
  {
    if |s| == 0 then 0 else (if s[0] == c then 1 else 0) + Count(s[1..], c)
  }

  lemma {:induction false} CountConcat(a: string, b: string, c: char)
    ensures Count(a + b, c) == Count(a, c) + Count(b, c)
  {
    if |a| == 0 {
      assert a + b == b;
    } else {
      assert (a + b)[1..] == a[1..] + b;
      CountConcat(a[1..], b, c);
    }
  }

  lemma {:induction false} CountAbsent(s: string, c: char)
    requires c !in s
    ensures Count(s, c) == 0
  {
    if |s| > 0 {
      assert s[0] != c;
      assert c !in s[1..] by {
        forall k | 0 <= k < |s[1..]| ensures s[1..][k] != c {
          assert s[1..][k] == s[k + 1];
        }
      }
      CountAbsent(s[1..], c);
    }
  }

  /** strings.Index for a one-character needle: the first position of `c`
      in `s`, or -1 when there is none. */
  function Index(s: string, c: char): (i: int)
    ensures i == -1 <==> c !in s
    ensures i != -1 ==> 0 <= i < |s| && s[i] == c && c !in s[..i]
  {
    if |s| == 0 then -1
    else if s[0] == c then 0
    else
      var k := Index(s[1..], c);
      if k == -1 then -1
      else
        assert s[..k + 1] == [s[0]] + s[1..][..k];
        k + 1
  }

  /** strings.Join with a one-character separator. */
  function Join(parts: seq<string>, sep: char): string
  {
    if |parts| == 0 then ""
    else if |parts| == 1 then parts[0]
    else parts[0] + [sep] + Join(parts[1..], sep)
  }

  /** Counting across the first occurrence of the separator. */
  lemma CountAtFirst(s: string, i: nat, c: char)
    requires i < |s| && s[i] == c && c !in s[..i]
    ensures Count(s, c) == 1 + Count(s[i + 1..], c)
  {
    assert s == s[..i] + ([c] + s[i + 1..]);
    CountConcat(s[..i], [c] + s[i + 1..], c);
    CountAbsent(s[..i], c);
    assert ([c] + s[i + 1..])[1..] == s[i + 1..];
  }

  /** The number of bytes UTF-8 spends on one character: one exactly for
      ASCII. */
  function Utf8Width(c: char): (w: nat)
    ensures 1 <= w <= 4
    ensures w == 1 <==> (c as int) < 0x80
  {
    if (c as int) < 0x80 then 1
    else if (c as int) < 0x800 then 2
    else if (c as int) < 0x1_0000 then 3
    else 4
  }

  /** The byte offset of character position k in the UTF-8 encoding of `s`.
      Go strings are bytes, so where Index gives position k, strings.Index
      gives ByteOffset(s, k). */
  function ByteOffset(s: string, k: nat): (b: nat)
    requires k <= |s|
    ensures k <= b <= 4 * k
  {
    if k == 0 then 0 else ByteOffset(s, k - 1) + Utf8Width(s[k - 1])
  }

  /** Byte offsets grow strictly with character positions, so comparing
      positions and comparing offsets agree, and a slice between two
      positions is the slice between their offsets. */
  lemma {:induction false} ByteOffsetMonotone(s: string, j: nat, k: nat)
    requires j < k <= |s|
    ensures ByteOffset(s, j) < ByteOffset(s, k)
    decreases k
  {
    if j < k - 1 {
      ByteOffsetMonotone(s, j, k - 1);
    }
  }

  /** A byte offset of 1 is exactly position 1 behind an ASCII first
      character. */
  lemma ByteOffsetOne(s: string, k: nat)
    requires k <= |s|
    ensures ByteOffset(s, k) == 1 <==> k == 1 && (s[0] as int) < 0x80
  {
    if k == 1 {
      assert ByteOffset(s, 1) == Utf8Width(s[0]);
    }
  }

  /** Index finds a position that holds `c` and has no earlier `c`. */
  lemma IndexAt(s: string, c: char, p: nat)
    requires p < |s| && s[p] == c && c !in s[..p]
    ensures Index(s, c) == p
  {
    assert s[p] in s;
  }

  /** strings.Split with a one-character separator: the pieces between the
      occurrences of `sep`. There is always at least one piece, no piece
      contains the separator, and joining the pieces gives `s` back. */
  function Split(s: string, sep: char): (parts: seq<string>)
    ensures |parts| == Count(s, sep) + 1
    ensures forall k :: 0 <= k < |parts| ==> sep !in parts[k]
    ensures Join(parts, sep) == s
    decreases |s|
  {
    var i := Index(s, sep);
    if i == -1 then
      CountAbsent(s, sep);
      [s]
    else
      var rest := Split(s[i + 1..], sep);
      CountAtFirst(s, i, sep);
      assert ([s[..i]] + rest)[1..] == rest;
      assert s == s[..i] + [sep] + s[i + 1..];
      [s[..i]] + rest
  }

  /** Split undoes Join when no part contains the separator. */
  lemma {:induction false} SplitJoin(parts: seq<string>, sep: char)
    requires |parts| >= 1
    requires forall k :: 0 <= k < |parts| ==> sep !in parts[k]
    ensures Split(Join(parts, sep), sep) == parts
  {
    if |parts| == 1 {
      assert Index(parts[0], sep) == -1;
    } else {
      var s := Join(parts, sep);
      var p := |parts[0]|;
      assert s == parts[0] + [sep] + Join(parts[1..], sep);
      assert s[..p] == parts[0];
      IndexAt(s, sep, p);
      assert s[p + 1..] == Join(parts[1..], sep);
      assert Split(s, sep) == [parts[0]] + Split(Join(parts[1..], sep), sep);
      SplitJoin(parts[1..], sep);
      assert parts == [parts[0]] + parts[1..];
    }
  }

  /** A character that is neither the separator nor in any part is not in
      the joined string. */
  lemma {:induction false} JoinAvoids(parts: seq<string>, sep: char, c: char)
    requires c != sep
    requires forall k :: 0 <= k < |parts| ==> c !in parts[k]
    ensures c !in Join(parts, sep)
  {
    if |parts| > 1 {
      JoinAvoids(parts[1..], sep, c);
      assert Join(parts, sep) == parts[0] + [sep] + Join(parts[1..], sep);
    }
  }

  predicate HasPrefix(s: string, prefix: string)
  {
    |prefix| <= |s| && s[..|prefix|] == prefix
  }

  predicate HasSuffix(s: string, suffix: string)
  {
    |suffix| <= |s| && s[|s| - |suffix|..] == suffix
  }

  /** strings.TrimPrefix: `s` without `prefix` when it starts with it. */
  function TrimPrefix(s: string, prefix: string): (r: string)
    ensures HasPrefix(s, prefix) ==> s == prefix + r
    ensures !HasPrefix(s, prefix) ==> r == s
  {
    if HasPrefix(s, prefix) then s[|prefix|..] else s
  }

  /** strings.TrimSuffix: `s` without `suffix` when it ends with it. */
  function TrimSuffix(s: string, suffix: string): (r: string)
    ensures HasSuffix(s, suffix) ==> s == r + suffix
    ensures !HasSuffix(s, suffix) ==> r == s
  {
    if HasSuffix(s, suffix) then s[..|s| - |suffix|] else s
  }
}
