/**
 * PostgreSQL's LIKE / ILIKE pattern matching, as used by the page-name filter
 * (`a.page_name ILIKE $n` bound to `%value%`).
 *
 * In a pattern `%` matches any run of characters, `_` matches exactly one
 * character and a backslash makes the next character literal. ILIKE compares
 * the lower-cased subject with the lower-cased pattern.
 */
module Like {
  import opened Text

  /** `s LIKE p`. A pattern ending in a lone backslash matches nothing (the
      engine rejects it; no pattern built by the repository has that shape). */
  predicate Like(s: string, p: string)
    decreases |s| + |p|
  {
    if p == [] then s == []
    else if p[0] == '%' then Like(s, p[1..]) || (s != [] && Like(s[1..], p))
    else if p[0] == '_' then s != [] && Like(s[1..], p[1..])
    else if p[0] == '\\' then |p| >= 2 && s != [] && s[0] == p[1] && Like(s[1..], p[2..])
    else s != [] && s[0] == p[0] && Like(s[1..], p[1..])
  }

  /** `s ILIKE p`: case-insensitive LIKE (ASCII case folding). */
  predicate ILike(s: string, p: string)
  {
    Like(Lower(s), Lower(p))
  }

  predicate IsLikeSpecial(c: char)
  {
    c == '%' || c == '_' || c == '\\'
  }

  /** The value contains none of LIKE's special characters. */
  predicate NoWildcards(v: string)
  {
    forall i :: 0 <= i < |v| ==> !IsLikeSpecial(v[i])
  }

  /** One character as a pattern matching only itself. */
  function EscapeChar(c: char): (r: string)
    ensures |r| >= 1
  {
    if IsLikeSpecial(c) then ['\\', c] else [c]
  }

  /** Escapes LIKE's special characters so that `v` matches only itself. */
  function EscapeLike(v: string): (r: string)
    ensures |r| >= |v|
  {
    if v == [] then [] else EscapeChar(v[0]) + EscapeLike(v[1..])
  }

  /** The contains-pattern the repository binds for a page-name filter. */
  function ContainsPattern(v: string): (r: string)
    ensures |r| == |v| + 2 && r[0] == '%' && r[|r| - 1] == '%'
    ensures r[1..|r| - 1] == v
  {
    "%" + v + "%"
  }

  lemma {:induction false} EscapeLikeNoWildcards(v: string)
    requires NoWildcards(v)
    ensures EscapeLike(v) == v
  {
    if v != [] {
      assert !IsLikeSpecial(v[0]);
      EscapeLikeNoWildcards(v[1..]);
    }
  }

  lemma {:induction false} LowerKeepsNoWildcards(v: string)
    requires NoWildcards(v)
    ensures NoWildcards(Lower(v))
  {
    forall i | 0 <= i < |v| ensures !IsLikeSpecial(Lower(v)[i]) {
      assert !IsLikeSpecial(v[i]);
    }
  }

  lemma {:induction false} LowerEscapeLike(v: string)
    ensures Lower(EscapeLike(v)) == EscapeLike(Lower(v))
  {
    if v != [] {
      var head := EscapeChar(v[0]);
      assert EscapeLike(v) == head + EscapeLike(v[1..]);
      LowerAppend(head, EscapeLike(v[1..]));
      LowerEscapeLike(v[1..]);
      assert Lower(v) == [LowerChar(v[0])] + Lower(v[1..]);
      assert Lower(v)[1..] == Lower(v[1..]);
      assert IsLikeSpecial(LowerChar(v[0])) == IsLikeSpecial(v[0]);
    }
  }

  lemma LikeEscapedChar(s: string, c: char, rest: string)
    ensures Like(s, EscapeChar(c) + rest) <==> s != [] && s[0] == c && Like(s[1..], rest)
  {
    var p := EscapeChar(c) + rest;
    if IsLikeSpecial(c) {
      assert p[0] == '\\' && p[1] == c && p[2..] == rest;
    } else {
      assert p[0] == c && p[1..] == rest;
    }
  }

  lemma StartsWithCons(s: string, v: string)
    requires s != [] && v != []
    ensures StartsWith(s, v) <==> s[0] == v[0] && StartsWith(s[1..], v[1..])
  {
    if |v| <= |s| {
      assert s[..|v|] == [s[0]] + s[1..][..|v| - 1];
      assert v == [v[0]] + v[1..];
    }
  }

  /** An escaped literal followed by a pattern `q` matches exactly the strings
      that start with the literal and continue with a match of `q`. */
  lemma {:induction false} LikeEscapedPrefix(s: string, v: string, q: string)
    ensures Like(s, EscapeLike(v) + q) <==> StartsWith(s, v) && Like(s[|v|..], q)
  {
    if v == [] {
      assert EscapeLike(v) + q == q;
      assert s[|v|..] == s;
    } else {
      assert EscapeLike(v) + q == EscapeChar(v[0]) + (EscapeLike(v[1..]) + q);
      LikeEscapedChar(s, v[0], EscapeLike(v[1..]) + q);
      if s != [] {
        LikeEscapedPrefix(s[1..], v[1..], q);
        StartsWithCons(s, v);
        if |v| <= |s| {
          assert s[|v|..] == s[1..][|v[1..]|..];
        }
      }
    }
  }

  lemma {:induction false} LikePercentMatchesAll(s: string)
    ensures Like(s, "%")
    decreases |s|
  {
    if s != [] {
      LikePercentMatchesAll(s[1..]);
    }
  }

  /** With every special character escaped, the contains-pattern is exactly a
      substring test. */
  lemma {:induction false} LikeEscapedContains(s: string, v: string)
    ensures Like(s, ContainsPattern(EscapeLike(v))) <==> Contains(s, v)
    decreases |s|
  {
    var e := EscapeLike(v);
    var p := ContainsPattern(e);
    assert p[0] == '%' && p[1..] == e + "%";
    LikeEscapedPrefix(s, v, "%");
    if |v| <= |s| {
      LikePercentMatchesAll(s[|v|..]);
    }
    if s != [] {
      LikeEscapedContains(s[1..], v);
    }
  }

  /** A page-name value without special characters filters by case-insensitive
      substring, which is what the filter is documented to do. */
  lemma PageNamePatternIsContains(name: string, v: string)
    requires NoWildcards(v)
    ensures ILike(name, ContainsPattern(v)) <==> Contains(Lower(name), Lower(v))
  {
    LowerAppend("%" + v, "%");
    LowerAppend("%", v);
    assert Lower(ContainsPattern(v)) == ContainsPattern(Lower(v));
    LowerKeepsNoWildcards(v);
    EscapeLikeNoWildcards(Lower(v));
    LikeEscapedContains(Lower(name), Lower(v));
  }

  /** Escaping the value first makes the filter a case-insensitive substring
      test for every value. */
  lemma EscapedPageNamePatternIsContains(name: string, v: string)
    ensures ILike(name, ContainsPattern(EscapeLike(v))) <==> Contains(Lower(name), Lower(v))
  {
    var e := EscapeLike(v);
    LowerAppend("%" + e, "%");
    LowerAppend("%", e);
    LowerEscapeLike(v);
    assert Lower(ContainsPattern(e)) == ContainsPattern(EscapeLike(Lower(v)));
    LikeEscapedContains(Lower(name), Lower(v));
  }

  /** The unescaped pattern lets `_` act as a wildcard: the filter value "_"
      matches the page name "Acme", which does not contain "_". */
  lemma UnderscoreValueMatchesAnyName()
    ensures ILike("Acme", ContainsPattern("_"))
    ensures !Contains(Lower("Acme"), Lower("_"))
  {
    LowerAcme();
    UnderscorePatternMatchesAcme();
    NoUnderscoreInAcme();
  }

  lemma LowerAcme()
    ensures Lower("Acme") == "acme" && Lower("_") == "_" && Lower(ContainsPattern("_")) == "%_%"
  {
    assert Lower("Acme") == "acme";
    assert Lower("%_%") == "%_%";
  }

  /** `%_%` matches any non-empty text, "acme" included. */
  lemma UnderscorePatternMatchesAcme()
    ensures Like("acme", "%_%")
  {
    LikePercentMatchesAll("cme");
    assert Like("acme", "_%");
  }

  lemma NoUnderscoreInAcme()
    ensures !Contains("acme", "_")
  {
    assert "acme" == ['a', 'c', 'm', 'e'];
    WithoutCharNotContained("acme", '_');
  }

  /** A text without the character does not contain it. */
  lemma {:induction false} WithoutCharNotContained(s: string, c: char)
    requires forall i :: 0 <= i < |s| ==> s[i] != c
    ensures !Contains(s, [c])
    decreases |s|
  {
    if s != [] {
      assert s[..1][0] == s[0];
      WithoutCharNotContained(s[1..], c);
    }
  }
}
