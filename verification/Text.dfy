/** Text helpers shared by several components: trimming and lexicographic order. */
module Text {
  import opened Wrappers
  import opened Orders

  predicate IsWhitespace(c: char) {
    || '\U{0009}' <= c <= '\U{000D}'
    || c in {' ', '\U{0085}', '\U{00A0}', '\U{1680}', '\U{2028}', '\U{2029}', '\U{202F}', '\U{205F}', '\U{3000}'}
    || '\U{2000}' <= c <= '\U{200A}'
  }

  function TrimStart(s: string): (r: string) {
    if s != [] && IsWhitespace(s[0]) then TrimStart(s[1..]) else s
  }

  function TrimEnd(s: string): (r: string) {
    if s != [] && IsWhitespace(s[|s| - 1]) then TrimEnd(s[..|s| - 1]) else s
  }

  function Trim(s: string): (r: string) {
    TrimEnd(TrimStart(s))
  }

  /** Text without whitespace at either end is its own trimming. */
  lemma {:induction false} TrimIdentity(s: string)
    requires s != [] ==> !IsWhitespace(s[0]) && !IsWhitespace(s[|s| - 1])
    ensures Trim(s) == s
  {}

  /** Trimmed text has no whitespace at either end, so trimming again changes nothing. */
  lemma {:induction false} TrimTrim(s: string)
    ensures Trim(Trim(s)) == Trim(s)
  {
    TrimStartHead(s);
    TrimEndKeeps(TrimStart(s));
    TrimIdentity(Trim(s));
  }

  lemma {:induction false} TrimStartHead(s: string)
    ensures TrimStart(s) != [] ==> !IsWhitespace(TrimStart(s)[0])
  {
    if s != [] && IsWhitespace(s[0]) {
      TrimStartHead(s[1..]);
    }
  }

  lemma {:induction false} TrimEndKeeps(s: string)
    ensures var t := TrimEnd(s); t != [] ==> s != [] && t[0] == s[0] && !IsWhitespace(t[|t| - 1])
  {
    if s != [] && IsWhitespace(s[|s| - 1]) {
      TrimEndKeeps(s[..|s| - 1]);
    }
  }

  /** The text before and after the first separator, if there is one. */
  function SplitOnce(s: string, c: char): (r: Option<(string, string)>)
    ensures r.Some? ==> s == r.value.0 + [c] + r.value.1 && c !in r.value.0
    ensures r.None? ==> c !in s
  {
    if s == [] then None
    else if s[0] == c then
      assert s == [] + [c] + s[1..];
      Some(([], s[1..]))
    else
      assert s == [s[0]] + s[1..];
      match SplitOnce(s[1..], c)
      case None => None
      case Some((a, b)) =>
        assert [s[0]] + (a + [c] + b) == ([s[0]] + a) + [c] + b;
        Some(([s[0]] + a, b))
  }

  lemma {:induction false} SplitOnceAt(a: string, c: char, b: string)
    requires c !in a
    ensures SplitOnce(a + [c] + b, c) == Some((a, b))
  {
    var s := a + [c] + b;
    if a == [] {
      assert s[1..] == b;
    } else {
      SplitOnceAt(a[1..], c, b);
      assert s[1..] == a[1..] + [c] + b && s[0] == a[0] && a == [a[0]] + a[1..];
    }
  }

  /** Lexicographic order by character. */
  predicate Less(a: string, b: string) {
    if b == [] then false
    else if a == [] then true
    else a[0] < b[0] || (a[0] == b[0] && Less(a[1..], b[1..]))
  }

  lemma {:induction false} LessTotal(a: string, b: string)
    ensures Less(a, b) || Less(b, a) || a == b
    ensures !(Less(a, b) && Less(b, a)) && !Less(a, a)
  {
    LessIrreflexive(a);
    if a != [] && b != [] {
      LessTotal(a[1..], b[1..]);
      assert a == [a[0]] + a[1..] && b == [b[0]] + b[1..];
    }
  }

  /** The same order, read from the largest down. */
  predicate Greater(a: string, b: string) { Less(b, a) }

  lemma {:induction false} GreaterIsOrder()
    ensures IsOrder(Greater)
  {
    forall a, b
      ensures !(Greater(a, b) && Greater(b, a)) && (Greater(a, b) || Greater(b, a) || a == b)
    {
      LessTotal(a, b);
    }
    forall a, b, c | Greater(a, b) && Greater(b, c)
      ensures Greater(a, c)
    {
      LessTransitive(c, b, a);
    }
  }

  lemma {:induction false} LessIrreflexive(a: string)
    ensures !Less(a, a)
  {
    if a != [] {
      LessIrreflexive(a[1..]);
    }
  }

  lemma {:induction false} LessTransitive(a: string, b: string, c: string)
    requires Less(a, b) && Less(b, c)
    ensures Less(a, c)
  {
    if a != [] && a[0] == b[0] && b[0] == c[0] {
      LessTransitive(a[1..], b[1..], c[1..]);
    }
  }
}
