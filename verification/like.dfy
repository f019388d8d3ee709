/** Row selection by hash in the two SQL dialects (source/Query.cpp): SQLite compares with IS,
    PostgreSQL with LIKE, where `%` stands for any text, `_` for any character and a backslash
    quotes the character after it. */
module Like {

  datatype Dialect = SQLite | PostgreSQL

  predicate LikeMatch(pattern: string, text: string)
    decreases |pattern| + |text|
  {
    if pattern == "" then text == ""
    else if pattern[0] == '%' then
      LikeMatch(pattern[1..], text) || (text != "" && LikeMatch(pattern, text[1..]))
    else if pattern[0] == '_' then text != "" && LikeMatch(pattern[1..], text[1..])
    else if pattern[0] == '\\' then
      |pattern| > 1 && text != "" && text[0] == pattern[1] && LikeMatch(pattern[2..], text[1..])
    else text != "" && text[0] == pattern[0] && LikeMatch(pattern[1..], text[1..])
  }

  predicate Matches(dialect: Dialect, pattern: string, text: string) {
    if dialect.SQLite? then pattern == text else LikeMatch(pattern, text)
  }

  predicate Meta(c: char) {
    c == '%' || c == '_' || c == '\\'
  }

  predicate Plain(pattern: string) {
    forall i | 0 <= i < |pattern| :: !Meta(pattern[i])
  }

  /** The pattern selects exactly the rows holding the same string. */
  ghost predicate Exact(dialect: Dialect, pattern: string) {
    forall text :: Matches(dialect, pattern, text) <==> text == pattern
  }

  lemma {:induction false} PlainMatchesItself(pattern: string, text: string)
    requires Plain(pattern)
    ensures LikeMatch(pattern, text) <==> text == pattern
  {
    if pattern != "" {
      assert !Meta(pattern[0]);
      if text != "" {
        PlainMatchesItself(pattern[1..], text[1..]);
        assert text == [text[0]] + text[1..] && pattern == [pattern[0]] + pattern[1..];
      }
    }
  }

  /** A pattern that accepts a text longer than itself accepts a second one too. */
  lemma {:induction false} LongMatchIsNotUnique(pattern: string, text: string) returns (other: string)
    requires LikeMatch(pattern, text) && |text| > |pattern|
    ensures other != text && LikeMatch(pattern, other)
    decreases |pattern|
  {
    if pattern[0] == '%' {
      other := ['x'] + text;
      assert other[1..] == text;
    } else {
      var step := if pattern[0] == '\\' then 2 else 1;
      var rest := LongMatchIsNotUnique(pattern[step..], text[1..]);
      other := [text[0]] + rest;
      assert other[1..] == rest;
    }
  }

  lemma MetaBreaksEquality(pattern: string)
    requires !Plain(pattern)
    ensures exists text :: LikeMatch(pattern, text) != (text == pattern)
    decreases |pattern|
  {
    if LikeMatch(pattern, pattern) {
      var other := SecondMatch(pattern);
      assert LikeMatch(pattern, other) != (other == pattern);
    } else {
      assert LikeMatch(pattern, pattern) != (pattern == pattern);
    }
  }

  /** With a metacharacter in it, a pattern that accepts itself accepts another text as well. */
  lemma {:induction false} SecondMatch(pattern: string) returns (other: string)
    requires !Plain(pattern) && LikeMatch(pattern, pattern)
    ensures other != pattern && LikeMatch(pattern, other)
    decreases |pattern|
  {
    var rest := pattern[1..];
    if pattern[0] == '%' {
      other := ['x'] + pattern;
      assert other[1..] == pattern;
    } else if pattern[0] == '_' {
      other := ['x'] + rest;
      assert other[1..] == rest;
    } else if pattern[0] == '\\' {
      assert pattern[1] == '\\';
      var second := LongMatchIsNotUnique(pattern[2..], rest);
      other := ['\\'] + second;
      assert other[1..] == second;
      assert pattern == ['\\'] + rest;
    } else {
      assert !Plain(rest) by {
        var i :| 0 <= i < |pattern| && Meta(pattern[i]);
        assert rest[i - 1] == pattern[i];
      }
      var second := SecondMatch(rest);
      other := [pattern[0]] + second;
      assert other[1..] == second;
      assert pattern == [pattern[0]] + rest;
    }
  }

  /** Both dialects select the same rows exactly for hashes free of LIKE metacharacters. */
  lemma ExactIffPlain(dialect: Dialect, pattern: string)
    ensures Exact(dialect, pattern) <==> dialect.SQLite? || Plain(pattern)
  {
    if dialect.PostgreSQL? {
      if Plain(pattern) {
        forall text ensures Matches(dialect, pattern, text) <==> text == pattern {
          PlainMatchesItself(pattern, text);
        }
      } else {
        MetaBreaksEquality(pattern);
        var text :| LikeMatch(pattern, text) != (text == pattern);
        assert Matches(dialect, pattern, text) != (text == pattern);
      }
    }
  }

  /** Decimal text of a hash value, as `std::to_string` prints it. */
  function Decimal(n: nat): string {
    var digit := ['0' + (n % 10) as char];
    if n < 10 then digit else Decimal(n / 10) + digit
  }

  /** Device hashes are printed numbers, so every lookup by device hash is exact. */
  lemma DeviceHashesAreExact(dialect: Dialect, n: nat)
    ensures Exact(dialect, Decimal(n))
    ensures Plain(Decimal(n))
  {
    DecimalIsPlain(n);
    ExactIffPlain(dialect, Decimal(n));
  }

  lemma {:induction false} DecimalIsPlain(n: nat)
    ensures Plain(Decimal(n))
  {
    if n >= 10 {
      DecimalIsPlain(n / 10);
    }
  }
}
