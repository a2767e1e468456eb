/** regexp.QuoteMeta: every regular-expression metacharacter of the input is
    preceded by a backslash, so the pattern matches the literal text. */
module QuoteMeta {

  /** The characters regexp.QuoteMeta escapes. */
  const Special: string := "\\.+*?()|[]{}^$"

  function Escape(c: char): string
  {
    if c in Special then ['\\', c] else [c]
  }

  /** regexp.QuoteMeta. */
  function QuoteMeta(s: string): (r: string)
    ensures |r| == |s| + NumSpecial(s)
    ensures Literal(r)
  {
    if |s| == 0 then "" else
      var rest := QuoteMeta(s[1..]);
      LiteralPrepend(s[0], rest);
      Escape(s[0]) + rest
  }

  function NumSpecial(s: string): nat
  {
    if |s| == 0 then 0 else (if s[0] in Special then 1 else 0) + NumSpecial(s[1..])
  }

  /** A pattern in which every metacharacter is escaped by a backslash and
      every backslash escapes a metacharacter: it denotes literal text. */
  predicate Literal(p: string)
    decreases |p|
  {
    if |p| == 0 then true
    else if p[0] == '\\' then |p| >= 2 && p[1] in Special && Literal(p[2..])
    else p[0] !in Special && Literal(p[1..])
  }

  lemma LiteralPrepend(c: char, rest: string)
    requires Literal(rest)
    ensures Literal(Escape(c) + rest)
  {
    if c in Special {
      assert (Escape(c) + rest)[2..] == rest;
    } else {
      assert (Escape(c) + rest)[1..] == rest;
    }
  }

  /** The text a literal pattern matches: each escape pair stands for its
      second character. */
  function Unquote(p: string): string
    decreases |p|
  {
    if |p| == 0 then ""
    else if p[0] == '\\' && |p| >= 2 then [p[1]] + Unquote(p[2..])
    else [p[0]] + Unquote(p[1..])
  }

  /** QuoteMeta loses nothing: unquoting the pattern gives the input back. */
  lemma {:induction false} UnquoteQuoteMeta(s: string)
    ensures Unquote(QuoteMeta(s)) == s
  {
    if |s| > 0 {
      var rest := QuoteMeta(s[1..]);
      UnquoteQuoteMeta(s[1..]);
      if s[0] in Special {
        assert (Escape(s[0]) + rest)[2..] == rest;
      } else {
        assert (Escape(s[0]) + rest)[1..] == rest;
      }
      assert s == [s[0]] + s[1..];
    }
  }
}
