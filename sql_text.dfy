/** Text-level vocabulary shared by the statement builders: identifiers,
    persistent types, SQL fragments with their bind-argument types, and the
    Kotlin string operations (compareTo, trim, startsWith ignoring case) the
    builders rely on. */
module SqlText {

  /** A SQL name in its raw form and in its quoted form (`value`). The
      quoting itself belongs to the Identity collaborator and is supplied by
      whoever builds the identity. */
  datatype Identity = Identity(unquoted: string, value: string)

  /** `Identity.make(name)`: the quoting rule is a parameter of the model. */
  function MakeIdentity(name: string, quote: string -> string): (r: Identity)
    ensures r.unquoted == name && r.value == quote(name)
  {
    Identity(name, quote(name))
  }

  /** The attributes of a persistent type the core reads: its declared SQL
      type, whether it admits null and whether it is an integer type. The
      value codec (`valueToString`) is passed separately where it is used. */
  datatype PersistentType = PersistentType(sqlType: string, nullable: bool, isIntegerType: bool)

  /** SQL text with the ordered types of the bind placeholders it holds: the
      shape of a statement seed and of every rendered expression. */
  datatype SqlFragment = SqlFragment(sql: string, types: seq<PersistentType>)

  type StatementSeed = SqlFragment

  /** Number of `?` bind placeholders in a piece of SQL text. */
  function Placeholders(s: string): nat
  {
    if s == [] then 0 else (if s[0] == '?' then 1 else 0) + Placeholders(s[1..])
  }

  lemma {:induction false} PlaceholdersConcat(a: string, b: string)
    ensures Placeholders(a + b) == Placeholders(a) + Placeholders(b)
  {
    if a == [] {
      assert a + b == b;
    } else {
      assert (a + b)[1..] == a[1..] + b;
      PlaceholdersConcat(a[1..], b);
    }
  }

  /** A fragment is well formed when it carries one argument type per
      placeholder in its text, so that binding by position lines up. */
  predicate WellFormed(f: SqlFragment)
  {
    Placeholders(f.sql) == |f.types|
  }

  /** `parts` joined with `sep` between consecutive elements. */
  function JoinWith(sep: string, parts: seq<string>): (r: string)
    ensures parts == [] ==> r == []
    ensures |parts| == 1 ==> r == parts[0]
  {
    if parts == [] then []
    else if |parts| == 1 then parts[0]
    else parts[0] + sep + JoinWith(sep, parts[1..])
  }

  /** Joining one more part appends the separator and that part. */
  lemma {:induction false} JoinWithSnoc(sep: string, parts: seq<string>, p: string)
    requires parts != []
    ensures JoinWith(sep, parts + [p]) == JoinWith(sep, parts) + sep + p
  {
    if |parts| > 1 {
      assert (parts + [p])[1..] == parts[1..] + [p];
      JoinWithSnoc(sep, parts[1..], p);
    }
  }

  /** Kotlin/Java `String.compareTo`: the difference of the first differing
      characters, otherwise the difference of the lengths. */
  function StrCompare(a: string, b: string): int
  {
    if a == [] || b == [] then |a| - |b|
    else if a[0] != b[0] then a[0] as int - b[0] as int
    else StrCompare(a[1..], b[1..])
  }

  lemma {:induction false} StrCompareZero(a: string, b: string)
    ensures StrCompare(a, b) == 0 <==> a == b
  {
    if a != [] && b != [] && a[0] == b[0] {
      StrCompareZero(a[1..], b[1..]);
      assert a == [a[0]] + a[1..] && b == [b[0]] + b[1..];
    }
  }

  lemma {:induction false} StrCompareAntisymmetric(a: string, b: string)
    ensures StrCompare(a, b) == -StrCompare(b, a)
  {
    if a != [] && b != [] && a[0] == b[0] {
      StrCompareAntisymmetric(a[1..], b[1..]);
    }
  }

  lemma {:induction false} StrCompareTransitive(a: string, b: string, c: string)
    requires StrCompare(a, b) < 0 && StrCompare(b, c) < 0
    ensures StrCompare(a, c) < 0
  {
    if a != [] && b != [] && c != [] && a[0] == b[0] && b[0] == c[0] {
      StrCompareTransitive(a[1..], b[1..], c[1..]);
    }
  }

  /** Kotlin `Char.isWhitespace`: Java's `Character.isWhitespace` or
      `Character.isSpaceChar`. */
  predicate IsWhitespace(c: char)
  {
    || c == ' ' || c == '\t' || c == '\n' || c == '\U{B}' || c == '\U{C}' || c == '\r'
    || ('\U{1C}' <= c <= '\U{1F}')
    || c == '\U{A0}' || c == '\U{1680}' || ('\U{2000}' <= c <= '\U{200A}')
    || c == '\U{2028}' || c == '\U{2029}' || c == '\U{202F}' || c == '\U{205F}' || c == '\U{3000}'
  }

  function TrimStart(s: string): (r: string)
    ensures |r| <= |s| && r == s[|s| - |r|..]
    ensures r != [] ==> !IsWhitespace(r[0])
  {
    if s != [] && IsWhitespace(s[0]) then TrimStart(s[1..]) else s
  }

  /** Trimming the start drops exactly the leading run of whitespace. */
  lemma {:induction false} TrimStartDrops(s: string, k: nat)
    requires k <= |s| && (forall i :: 0 <= i < k ==> IsWhitespace(s[i]))
    requires k == |s| || !IsWhitespace(s[k])
    ensures TrimStart(s) == s[k..]
  {
    if k > 0 {
      assert s[1..][k - 1..] == s[k..];
      TrimStartDrops(s[1..], k - 1);
    }
  }

  function TrimEnd(s: string): (r: string)
    ensures |r| <= |s| && r == s[..|r|]
    ensures r != [] ==> !IsWhitespace(r[|r| - 1])
  {
    if s != [] && IsWhitespace(s[|s| - 1]) then TrimEnd(s[..|s| - 1]) else s
  }

  lemma TrimEndOfUnpadded(s: string)
    requires s != [] && !IsWhitespace(s[|s| - 1])
    ensures TrimEnd(s) == s
  {
  }

  /** Trimming the end keeps any prefix whose last character is not
      whitespace. */
  lemma {:induction false} TrimEndKeepsPrefix(s: string, k: nat)
    requires 0 < k <= |s| && !IsWhitespace(s[k - 1])
    ensures k <= |TrimEnd(s)| && TrimEnd(s)[..k] == s[..k]
    decreases |s|
  {
    if IsWhitespace(s[|s| - 1]) {
      TrimEndKeepsPrefix(s[..|s| - 1], k);
    }
  }

  /** Kotlin `String.trim()`. */
  function Trim(s: string): string
  {
    TrimEnd(TrimStart(s))
  }

  /** Kotlin `Char.equals(p, ignoreCase = true)` for a character `p` drawn
      from printable ASCII (such as the `SELECT COUNT(*)` prefix): `c` matches
      `p` itself, the lower-case form of an upper-case letter `p`, and, since
      U+017F LATIN SMALL LETTER LONG S upper-cases to 'S', that letter for 'S'. */
  predicate MatchesIgnoringCase(c: char, p: char)
  {
    || c == p
    || ('A' <= p <= 'Z' && c as int == p as int + 32)
    || (p == 'S' && c == '\U{17F}')
  }

  /** Kotlin `s.startsWith(prefix, ignoreCase = true)` for an ASCII prefix. */
  predicate StartsWithIgnoringCase(s: string, prefix: string)
  {
    |prefix| <= |s| && forall i :: 0 <= i < |prefix| ==> MatchesIgnoringCase(s[i], prefix[i])
  }
}
