/** Names built by joining slugs: physical table names and run ids. */
module Naming {

  predicate Safe(ch: char) { 'a' <= ch <= 'z' || '0' <= ch <= '9' || ch == '_' }

  /** The text after its leading run of unsafe characters. */
  function SkipUnsafe(s: string): (r: string)
    ensures |r| <= |s|
    ensures s != "" && !Safe(s[0]) ==> |r| < |s|
    ensures r != "" ==> Safe(r[0])
  {
    if s == "" || Safe(s[0]) then s else SkipUnsafe(s[1..])
  }

  /** Every maximal run of unsafe characters becomes one underscore. */
  function Substitute(s: string): string
    decreases |s|
  {
    if s == "" then ""
    else if Safe(s[0]) then [s[0]] + Substitute(s[1..])
    else "_" + Substitute(SkipUnsafe(s))
  }

  function StripLeft(s: string): string {
    if s != "" && s[0] == '_' then StripLeft(s[1..]) else s
  }

  function StripRight(s: string): string {
    if s != "" && s[|s| - 1] == '_' then StripRight(s[..|s| - 1]) else s
  }

  /** Identifier-safe slug of an already lower-cased text. */
  function Slug(lowered: string): string { StripRight(StripLeft(Substitute(lowered))) }

  predicate AllSafe(s: string) { forall i :: 0 <= i < |s| ==> Safe(s[i]) }

  predicate Trimmed(s: string) { s == "" || (s[0] != '_' && s[|s| - 1] != '_') }

  /** No two underscores in a row: the separator cannot be mistaken for part of the slug. */
  predicate NoDouble(s: string) { forall i :: 0 <= i < |s| - 1 ==> !(s[i] == '_' && s[i + 1] == '_') }

  lemma {:induction false} SubstituteIsSafe(s: string)
    ensures AllSafe(Substitute(s))
    ensures AllSafe(s) ==> Substitute(s) == s
    decreases |s|
  {
    if s != "" {
      if Safe(s[0]) {
        SubstituteIsSafe(s[1..]);
        assert AllSafe(s) ==> AllSafe(s[1..]);
      } else {
        SubstituteIsSafe(SkipUnsafe(s));
      }
    }
  }

  lemma {:induction false} StripLeftFacts(s: string)
    requires AllSafe(s)
    ensures AllSafe(StripLeft(s)) && (StripLeft(s) == "" || StripLeft(s)[0] != '_')
    ensures Trimmed(s) ==> StripLeft(s) == s
  {
    if s != "" && s[0] == '_' { StripLeftFacts(s[1..]); }
  }

  lemma {:induction false} StripRightFacts(s: string)
    requires AllSafe(s) && (s == "" || s[0] != '_')
    ensures AllSafe(StripRight(s)) && Trimmed(StripRight(s))
    ensures Trimmed(s) ==> StripRight(s) == s
  {
    if s != "" && s[|s| - 1] == '_' { StripRightFacts(s[..|s| - 1]); }
  }

  /** A slug is a trimmed identifier, and slugging it again changes nothing. */
  lemma SlugFacts(text: string)
    ensures AllSafe(Slug(text)) && Trimmed(Slug(text))
    ensures Slug(Slug(text)) == Slug(text)
  {
    SubstituteIsSafe(text);
    StripLeftFacts(Substitute(text));
    StripRightFacts(StripLeft(Substitute(text)));
    SubstituteIsSafe(Slug(text));
    StripLeftFacts(Slug(text));
    StripRightFacts(Slug(text));
  }

  /** The letters and digits of a text, in order. */
  function Letters(s: string): string {
    if s == "" then ""
    else (if 'a' <= s[0] <= 'z' || '0' <= s[0] <= '9' then [s[0]] else "") + Letters(s[1..])
  }

  lemma {:induction false} LettersConcat(a: string, b: string)
    ensures Letters(a + b) == Letters(a) + Letters(b)
  {
    if a == "" {
      assert a + b == b;
    } else {
      LettersConcat(a[1..], b);
      assert (a + b)[1..] == a[1..] + b;
    }
  }

  lemma {:induction false} SkipKeepsLetters(s: string)
    ensures Letters(SkipUnsafe(s)) == Letters(s)
  {
    if s != "" && !Safe(s[0]) { SkipKeepsLetters(s[1..]); }
  }

  lemma {:induction false} SubstituteKeepsLetters(s: string)
    ensures Letters(Substitute(s)) == Letters(s)
    decreases |s|
  {
    if s != "" {
      if Safe(s[0]) {
        SubstituteKeepsLetters(s[1..]);
        assert ([s[0]] + Substitute(s[1..]))[1..] == Substitute(s[1..]);
      } else {
        SubstituteKeepsLetters(SkipUnsafe(s));
        SkipKeepsLetters(s);
        assert ("_" + Substitute(SkipUnsafe(s)))[1..] == Substitute(SkipUnsafe(s));
      }
    }
  }

  lemma {:induction false} StripsKeepLetters(s: string)
    ensures Letters(StripLeft(s)) == Letters(s) && Letters(StripRight(s)) == Letters(s)
  {
    if s != "" {
      if s[0] == '_' { StripsKeepLetters(s[1..]); }
      if s[|s| - 1] == '_' {
        StripsKeepLetters(s[..|s| - 1]);
        LettersConcat(s[..|s| - 1], "_");
        assert s == s[..|s| - 1] + "_" && "_"[1..] == "";
      }
    }
  }

  lemma {:induction false} SubstituteSeparates(s: string)
    requires '_' !in s
    ensures NoDouble(Substitute(s))
    ensures s != "" && Safe(s[0]) ==> Substitute(s)[0] == s[0]
    decreases |s|
  {
    if s != "" {
      if Safe(s[0]) {
        SubstituteSeparates(s[1..]);
        assert s[0] != '_';
      } else {
        SkipKeepsOut(s);
        SubstituteSeparates(SkipUnsafe(s));
      }
    }
  }

  lemma {:induction false} SkipKeepsOut(s: string)
    requires '_' !in s
    ensures '_' !in SkipUnsafe(s)
  {
    if s != "" && !Safe(s[0]) { SkipKeepsOut(s[1..]); }
  }

  lemma {:induction false} StripsKeepNoDouble(s: string)
    requires NoDouble(s)
    ensures NoDouble(StripLeft(s)) && NoDouble(StripRight(s))
  {
    if s != "" {
      if s[0] == '_' { StripsKeepNoDouble(s[1..]); }
      if s[|s| - 1] == '_' { StripsKeepNoDouble(s[..|s| - 1]); }
    }
  }

  /** A slug keeps the text's letters and digits in order; identifier text that is trimmed already is its own slug;
      and between the words of a text without underscores there is a single one. */
  lemma SlugKeeps(text: string)
    ensures Letters(Slug(text)) == Letters(text)
    ensures AllSafe(text) && Trimmed(text) ==> Slug(text) == text
    ensures '_' !in text ==> NoDouble(Slug(text))
    ensures forall ch :: ch in Slug(text) ==> 'a' <= ch <= 'z' || '0' <= ch <= '9' || ch == '_'
  {
    SlugFacts(text);
    SubstituteKeepsLetters(text);
    StripsKeepLetters(Substitute(text));
    StripsKeepLetters(StripLeft(Substitute(text)));
    if AllSafe(text) && Trimmed(text) { SlugOfSlug(text); }
    if '_' !in text {
      SubstituteSeparates(text);
      StripsKeepNoDouble(Substitute(text));
      StripsKeepNoDouble(StripLeft(Substitute(text)));
    }
  }

  // --- Decimal numbers --------------------------------------------------------------------------

  const DIGITS := "0123456789"

  function Decimal(n: nat): string {
    if n < 10 then [DIGITS[n]] else Decimal(n / 10) + [DIGITS[n % 10]]
  }

  predicate IsDigit(ch: char) { '0' <= ch <= '9' }

  lemma {:induction false} DecimalDigits(n: nat)
    ensures Decimal(n) != "" && forall i :: 0 <= i < |Decimal(n)| ==> IsDigit(Decimal(n)[i])
    ensures n >= 10 ==> |Decimal(n)| >= 2
  {
    if n >= 10 { DecimalDigits(n / 10); }
  }

  function ValueOf(s: string): int { if s == "" then 0 else 10 * ValueOf(s[..|s| - 1]) + (s[|s| - 1] as int - '0' as int) }

  /** A decimal spells its number, without a leading zero. */
  lemma {:induction false} DecimalSpells(n: nat)
    ensures ValueOf(Decimal(n)) == n
    ensures n > 0 ==> Decimal(n) != "" && Decimal(n)[0] != '0'
  {
    if n < 10 {
      assert ValueOf(Decimal(n)[..0]) == 0;
    } else {
      DecimalSpells(n / 10);
      assert Decimal(n)[..|Decimal(n)| - 1] == Decimal(n / 10);
    }
  }

  lemma {:induction false} DecimalInjective(m: nat, n: nat)
    requires Decimal(m) == Decimal(n)
    ensures m == n
  {
    DecimalDigits(m);
    DecimalDigits(n);
    var x, y := Decimal(m), Decimal(n);
    if m >= 10 {
      assert x[..|x| - 1] == Decimal(m / 10) && y[..|y| - 1] == Decimal(n / 10);
      DecimalInjective(m / 10, n / 10);
    }
    assert x[|x| - 1] == DIGITS[m % 10] && y[|y| - 1] == DIGITS[n % 10];
  }

  // --- Joined names -----------------------------------------------------------------------------

  function Join(a: string, b: string): string { a + "__" + b }

  /** `a__b__<tag>n`, the shape of a table name (tag v) and of a run id (tag r). */
  function Tagged(a: string, b: string, tag: char, n: nat): string {
    Join(a, b) + "__" + [tag] + Decimal(n)
  }

  function TableName(dataset: string, key: string, version: nat): string {
    Tagged(Slug(dataset), Slug(key), 'v', version)
  }

  /** How names are spelt. */
  lemma NamesSpell(a: string, b: string, n: nat)
    ensures TableName(a, b, n) == Slug(a) + "__" + Slug(b) + "__v" + Decimal(n)
    ensures Tagged(a, b, 'r', n) == a + "__" + b + "__r" + Decimal(n)
  {
    assert "__v" == "__" + ['v'] && "__r" == "__" + ['r'];
  }

  lemma LongerTailDecides(x: string, m: nat, y: string, n: nat, tag: char)
    requires !IsDigit(tag) && x + [tag] + Decimal(m) == y + [tag] + Decimal(n)
    ensures |Decimal(m)| >= |Decimal(n)|
  {
    DecimalDigits(m);
    DecimalDigits(n);
    var s := x + [tag] + Decimal(m);
    assert s[|x|] == tag;
    forall i | |y| < i < |s| ensures IsDigit(s[i]) {
      assert s[i] == Decimal(n)[i - |y| - 1];
    }
  }

  /** The number after the tag can be read back. */
  lemma TagReadsBack(x: string, m: nat, y: string, n: nat, tag: char)
    requires !IsDigit(tag) && x + [tag] + Decimal(m) == y + [tag] + Decimal(n)
    ensures x == y && m == n
  {
    LongerTailDecides(x, m, y, n, tag);
    LongerTailDecides(y, n, x, m, tag);
    var s, t := x + [tag] + Decimal(m), y + [tag] + Decimal(n);
    assert x == s[..|x|] && y == t[..|y|];
    assert Decimal(m) == s[|x| + 1..] && Decimal(n) == t[|y| + 1..];
    DecimalInjective(m, n);
  }

  lemma SeparatorNotEarlier(a: string, x: string, b: string, y: string)
    requires Join(a, x) == Join(b, y)
    requires NoDouble(b) && (b == "" || b[|b| - 1] != '_')
    ensures |a| >= |b|
  {
    var s := Join(a, x);
    assert s[|a|] == '_' && s[|a| + 1] == '_';
    assert s == b + ("__" + y);
    forall i | 0 <= i < |b| ensures s[i] == b[i] {}
  }

  /** The first separator can be found again when neither left part contains or abuts one. */
  lemma JoinReadsBack(a: string, x: string, b: string, y: string)
    requires Join(a, x) == Join(b, y)
    requires NoDouble(a) && (a == "" || a[|a| - 1] != '_')
    requires NoDouble(b) && (b == "" || b[|b| - 1] != '_')
    ensures a == b && x == y
  {
    SeparatorNotEarlier(a, x, b, y);
    SeparatorNotEarlier(b, y, a, x);
    var s, t := Join(a, x), Join(b, y);
    assert a == s[..|a|] && b == t[..|b|];
    assert x == s[|a| + 2..] && y == t[|b| + 2..];
  }

  /** Exactly when two table names coincide: same version and same joined slugs. */
  lemma TableNamesCollideIff(d: string, k: string, v: nat, d': string, k': string, v': nat)
    ensures TableName(d, k, v) == TableName(d', k', v')
            <==> v == v' && Join(Slug(d), Slug(k)) == Join(Slug(d'), Slug(k'))
  {
    if TableName(d, k, v) == TableName(d', k', v') {
      var x, y := Join(Slug(d), Slug(k)) + "__", Join(Slug(d'), Slug(k')) + "__";
      TagReadsBack(x, v, y, v', 'v');
      assert x[..|x| - 2] == Join(Slug(d), Slug(k)) && y[..|y| - 2] == Join(Slug(d'), Slug(k'));
    }
  }

  /** Table names are injective on slugs free of a double underscore, empty ones included. */
  lemma TableNameInjective(d: string, k: string, v: nat, d': string, k': string, v': nat)
    requires NoDouble(Slug(d)) && NoDouble(Slug(d'))
    requires TableName(d, k, v) == TableName(d', k', v')
    ensures Slug(d) == Slug(d') && Slug(k) == Slug(k') && v == v'
  {
    TableNamesCollideIff(d, k, v, d', k', v');
    SlugFacts(d);
    SlugFacts(d');
    JoinReadsBack(Slug(d), Slug(k), Slug(d'), Slug(k'));
  }

  lemma SlugOfSlug(s: string)
    requires AllSafe(s) && Trimmed(s)
    ensures Slug(s) == s
  {
    SubstituteIsSafe(s);
    StripLeftFacts(s);
    StripRightFacts(s);
  }

  /** A double underscore inside a slug does make different partitions share a table. */
  lemma DoubleUnderscoreCollides(v: nat)
    ensures TableName("a__b", "c", v) == TableName("a", "b__c", v)
    ensures !NoDouble(Slug("a__b"))
  {
    SlugsAreThemselves();
    hide Slug, Decimal;
    assert Join("a__b", "c") == "a__b__c" == Join("a", "b__c");
    var s := "a__b";
    assert s[1] == '_' && s[2] == '_';
  }

  lemma SlugsAreThemselves()
    ensures Slug("a__b") == "a__b" && Slug("c") == "c" && Slug("a") == "a" && Slug("b__c") == "b__c"
  {
    hide Slug;
    SlugOfSlug("a__b");
    SlugOfSlug("c");
    SlugOfSlug("a");
    SlugOfSlug("b__c");
  }

  /** So do two spellings with one slug. */
  lemma SpellingsCollide(k: string, v: nat)
    ensures TableName("a-b", k, v) == TableName("a_b", k, v)
  {
    var s := "a-b";
    assert s[1..] == "-b" && s[1..][1..] == "b" && s[1..][1..][1..] == "";
    assert SkipUnsafe(s[1..]) == "b";
    assert Substitute("b") == "b";
    assert Substitute(s[1..]) == "_b";
    assert Substitute(s) == "a_b";
    SubstituteIsSafe("a_b");
  }

  /** Run ids read back when configs are free of double and trailing underscores. */
  lemma RunIdInjective(c: string, s: string, r: nat, c': string, s': string, r': nat)
    requires NoDouble(c) && (c == "" || c[|c| - 1] != '_')
    requires NoDouble(c') && (c' == "" || c'[|c'| - 1] != '_')
    requires Tagged(c, s, 'r', r) == Tagged(c', s', 'r', r')
    ensures c == c' && s == s' && r == r'
  {
    var x, y := Join(c, s) + "__", Join(c', s') + "__";
    TagReadsBack(x, r, y, r', 'r');
    assert x[..|x| - 2] == Join(c, s) && y[..|y| - 2] == Join(c', s');
    JoinReadsBack(c, s, c', s');
  }
}
