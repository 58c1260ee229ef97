/**
 * The list of available server locations shown to a user
 * (internal/utils/utils.go): one line per configured country, in ascending
 * key order, each line the stored flag emoji and the country's name.
 *
 * The configured map (key to "emoji name") is a parameter rather than the
 * global configuration. The country library's name lookups are the input
 * functions `english` and `russian`. Go's map iteration order, which the
 * runtime chooses, is the input `order`: the keys, each once. A call that
 * indexes past the split fields panics; the model answers None there.
 */
module Countries {
  import opened Wrappers
  import Text

  /**
   * The order sort.Strings puts strings in: character by character, a
   * proper prefix first. Go compares UTF-8 bytes, and byte order of UTF-8
   * agrees with the order of the code points compared here.
   */
  predicate Below(a: string, b: string)
  {
    if a == [] then b != []
    else if b == [] then false
    else a[0] < b[0] || (a[0] == b[0] && Below(a[1..], b[1..]))
  }

  lemma {:induction false} BelowIrreflexive(a: string)
    ensures !Below(a, a)
  {
    if a != [] {
      BelowIrreflexive(a[1..]);
    }
  }

  lemma {:induction false} BelowTransitive(a: string, b: string, c: string)
    requires Below(a, b) && Below(b, c)
    ensures Below(a, c)
  {
    if a != [] && b != [] && c != [] && a[0] == b[0] == c[0] {
      BelowTransitive(a[1..], b[1..], c[1..]);
    }
  }

  /** Two different strings are always ordered one way or the other. */
  lemma {:induction false} BelowTotal(a: string, b: string)
    requires a != b
    ensures Below(a, b) || Below(b, a)
  {
    if a != [] && b != [] && a[0] == b[0] {
      assert a == [a[0]] + a[1..] && b == [b[0]] + b[1..];
      BelowTotal(a[1..], b[1..]);
    }
  }

  lemma BelowAntisymmetric(a: string, b: string)
    requires !Below(a, b) && !Below(b, a)
    ensures a == b
  {
    if a != b {
      BelowTotal(a, b);
    }
  }

  /** No later string sorts below an earlier one. */
  predicate Ordered(s: seq<string>)
  {
    forall i, j :: 0 <= i < j < |s| ==> !Below(s[j], s[i])
  }

  predicate Distinct(s: seq<string>)
  {
    forall i, j :: 0 <= i < j < |s| ==> s[i] != s[j]
  }

  /** `x` placed before the first element that does not sort below it. */
  function InsertKey(s: seq<string>, x: string): (r: seq<string>)
    ensures multiset(r) == multiset(s) + multiset{x}
  {
    if s == [] || !Below(s[0], x) then [x] + s
    else
      assert s == [s[0]] + s[1..];
      [s[0]] + InsertKey(s[1..], x)
  }

  /** sort.Strings, as insertion of each string in turn. */
  function SortStrings(s: seq<string>): (r: seq<string>)
    ensures multiset(r) == multiset(s)
  {
    if s == [] then []
    else
      var n := |s| - 1;
      assert s == s[..n] + [s[n]];
      InsertKey(SortStrings(s[..n]), s[n])
  }

  lemma {:induction false} InsertKeyOrdered(s: seq<string>, x: string)
    requires Ordered(s)
    ensures Ordered(InsertKey(s, x))
  {
    var r := InsertKey(s, x);
    if s == [] || !Below(s[0], x) {
      forall j | 0 < j < |r|
        ensures !Below(r[j], x)
      {
        var y := s[j - 1];
        assert r[j] == y;
        if Below(y, x) {
          if s[0] == y {
          } else if s[0] == x {
            BelowIrreflexive(x);
          } else {
            // x is not above s[0] and s[0] is not above y, yet y is below x
            if Below(s[0], x) {
            } else {
              BelowTotal(s[0], x);
              BelowTransitive(y, x, s[0]);
            }
          }
        }
      }
    } else {
      InsertKeyOrdered(s[1..], x);
      var t := InsertKey(s[1..], x);
      assert r == [s[0]] + t;
      assert multiset(t) == multiset(s[1..]) + multiset{x};
      forall j | 0 < j < |r|
        ensures !Below(r[j], s[0])
      {
        assert r[j] in multiset(t);
        if r[j] == x {
          BelowIrreflexive(x);
          if Below(x, s[0]) {
            BelowTransitive(s[0], x, s[0]);
            BelowIrreflexive(s[0]);
          }
        } else {
          assert r[j] in multiset(s[1..]);
          var k :| 0 <= k < |s[1..]| && s[1..][k] == r[j];
          assert s[k + 1] == r[j];
        }
      }
    }
  }

  lemma {:induction false} SortStringsOrdered(s: seq<string>)
    ensures Ordered(SortStrings(s))
  {
    if s != [] {
      var n := |s| - 1;
      SortStringsOrdered(s[..n]);
      InsertKeyOrdered(SortStrings(s[..n]), s[n]);
    }
  }

  /** Two ordered arrangements of the same strings are the same sequence. */
  lemma {:induction false} OrderedUnique(r1: seq<string>, r2: seq<string>)
    requires Ordered(r1) && Ordered(r2) && multiset(r1) == multiset(r2)
    ensures r1 == r2
  {
    if r1 != [] {
      assert r1[0] in multiset(r2);
      assert r2 != [];
      assert r2[0] in multiset(r1);
      var i :| 0 <= i < |r1| && r1[i] == r2[0];
      var j :| 0 <= j < |r2| && r2[j] == r1[0];
      BelowIrreflexive(r1[0]);
      BelowIrreflexive(r2[0]);
      assert !Below(r2[0], r1[0]) && !Below(r1[0], r2[0]);
      BelowAntisymmetric(r1[0], r2[0]);
      assert r1 == [r1[0]] + r1[1..] && r2 == [r2[0]] + r2[1..];
      assert multiset(r1) == multiset{r1[0]} + multiset(r1[1..]);
      assert multiset(r2) == multiset{r2[0]} + multiset(r2[1..]);
      forall x
        ensures multiset(r1[1..])[x] == multiset(r2[1..])[x]
      {
        assert multiset(r1)[x] == multiset{r1[0]}[x] + multiset(r1[1..])[x];
        assert multiset(r2)[x] == multiset{r2[0]}[x] + multiset(r2[1..])[x];
      }
      assert multiset(r1[1..]) == multiset(r2[1..]);
      OrderedUnique(r1[1..], r2[1..]);
    }
  }

  /**
   * The sorted keys are exactly the map's keys, as many as the map has, and
   * go strictly upward.
   */
  lemma SortedKeys(countries: map<string, string>, order: seq<string>)
    requires forall k :: k in order <==> k in countries
    requires Distinct(order)
    ensures var keys := SortStrings(order);
      && |keys| == |order| == |countries|
      && (forall k :: k in keys <==> k in countries)
      && (forall i, j :: 0 <= i < j < |keys| ==> Below(keys[i], keys[j]))
  {
    var keys := SortStrings(order);
    SortStringsOrdered(order);
    assert forall k :: k in keys <==> k in multiset(order);
    assert |keys| == |order| by {
      assert |multiset(keys)| == |multiset(order)|;
    }
    DistinctCardinality(order);
    assert countries.Keys == set k | k in order;
    forall x
      ensures multiset(keys)[x] <= 1
    {
      DistinctCount(order, x);
    }
    StrictlyAscending(keys);
  }

  /** An ordered sequence without repeats goes strictly upward. */
  lemma StrictlyAscending(keys: seq<string>)
    requires Ordered(keys) && forall x :: multiset(keys)[x] <= 1
    ensures forall i, j :: 0 <= i < j < |keys| ==> Below(keys[i], keys[j])
  {
    forall i, j | 0 <= i < j < |keys|
      ensures Below(keys[i], keys[j])
    {
      assert keys == keys[..j] + [keys[j]] + keys[j + 1..];
      assert keys[i] in keys[..j];
      assert multiset(keys)[keys[i]] == multiset(keys[..j])[keys[i]] + multiset([keys[j]])[keys[i]] + multiset(keys[j + 1..])[keys[i]];
      BelowTotal(keys[i], keys[j]);
    }
  }

  lemma {:induction false} DistinctCardinality(s: seq<string>)
    requires Distinct(s)
    ensures |set k | k in s| == |s|
  {
    if s != [] {
      var n := |s| - 1;
      assert s == s[..n] + [s[n]];
      DistinctCardinality(s[..n]);
      assert (set k | k in s) == (set k | k in s[..n]) + {s[n]};
      assert s[n] !in s[..n];
    }
  }

  lemma {:induction false} DistinctCount(s: seq<string>, x: string)
    requires Distinct(s)
    ensures multiset(s)[x] <= 1
  {
    if s != [] {
      var n := |s| - 1;
      assert s == s[..n] + [s[n]];
      DistinctCount(s[..n], x);
      assert s[n] !in s[..n];
    }
  }

  /** Whatever order the runtime iterates the map in, the sorted keys are the same. */
  lemma SortIgnoresOrder(order1: seq<string>, order2: seq<string>)
    requires multiset(order1) == multiset(order2)
    ensures SortStrings(order1) == SortStrings(order2)
  {
    SortStringsOrdered(order1);
    SortStringsOrdered(order2);
    OrderedUnique(SortStrings(order1), SortStrings(order2));
  }

  /**
   * One country's line: "└ " for the last key and "├ " before it, the first
   * space-separated field (the emoji), the country's name looked up by the
   * second field in Russian for "ru" and in English otherwise, and a line
   * break. A value with no space has no second field: the call panics.
   */
  function Line(value: string, last: bool, langCode: string, english: string -> string, russian: string -> string): Option<string>
  {
    var country := Text.Split(value, ' ');
    if |country| < 2 then None
    else Some(Glyph(last) + country[0] + CountryName(langCode, country[1], english, russian) + "\n")
  }

  /** The tree glyph that opens a line: a corner for the last one, a branch before it. */
  function Glyph(last: bool): (g: string)
    ensures |g| == 2 && g[1] == ' '
  {
    if last then "└ " else "├ "
  }

  /** The country's name, in Russian for "ru" and in English for every other language code. */
  function CountryName(langCode: string, word: string, english: string -> string, russian: string -> string): string
  {
    if langCode == "ru" then russian(word) else english(word)
  }

  /** The lines of the first n sorted keys, or None once one of them panics. */
  function Lines(countries: map<string, string>, keys: seq<string>, n: nat, langCode: string,
                 english: string -> string, russian: string -> string): Option<seq<string>>
    requires n <= |keys| && forall k :: k in keys ==> k in countries
    decreases n, 0
  {
    if n == 0 then Some([]) else LinesThrough(countries, keys, n - 1, langCode, english, russian)
  }

  /** The lines of the sorted keys up to and including the i-th. */
  function LinesThrough(countries: map<string, string>, keys: seq<string>, i: nat, langCode: string,
                        english: string -> string, russian: string -> string): Option<seq<string>>
    requires i < |keys| && forall k :: k in keys ==> k in countries
    decreases i, 1
  {
    match Lines(countries, keys, i, langCode, english, russian)
    case None => None
    case Some(ls) =>
      match Line(countries[keys[i]], i == |keys| - 1, langCode, english, russian)
      case None => None
      case Some(l) => Some(ls + [l])
  }

  function Concat(lines: seq<string>): string
  {
    if lines == [] then "" else Concat(lines[..|lines| - 1]) + lines[|lines| - 1]
  }

  /** BuildAvailableCountriesLists over the sorted keys. */
  function Listing(countries: map<string, string>, keys: seq<string>, langCode: string,
                   english: string -> string, russian: string -> string): Option<string>
    requires forall k :: k in keys ==> k in countries
  {
    match Lines(countries, keys, |keys|, langCode, english, russian)
    case None => None
    case Some(ls) => Some(Concat(ls))
  }

  /**
   * The line for a value with a space: it opens with the tree glyph for its
   * position, closes with a line break, and between them holds the text
   * before the first space followed by the name of the word after it, in
   * the language asked for.
   */
  lemma LineRules(emoji: string, rest: string, last: bool, langCode: string, english: string -> string, russian: string -> string)
    requires ' ' !in emoji
    ensures var l := Line(emoji + [' '] + rest, last, langCode, english, russian);
      var word := Text.Split(rest, ' ')[0];
      && l.Some?
      && |l.value| >= 3
      && l.value[..2] == (if last then "└ " else "├ ")
      && l.value[|l.value| - 1] == '\n'
      && l.value[2..|l.value| - 1] == emoji + (if langCode == "ru" then russian(word) else english(word))
  {
    var value := emoji + [' '] + rest;
    Text.SplitAfterPrefix(emoji, rest, ' ');
    var country := Text.Split(value, ' ');
    assert country == [emoji] + Text.Split(rest, ' ');
    var word := Text.Split(rest, ' ')[0];
    assert country[0] == emoji && country[1] == word;
    var name := CountryName(langCode, word, english, russian);
    assert Line(value, last, langCode, english, russian) == Some(Glyph(last) + emoji + name + "\n");
    Framed(Glyph(last), emoji, name);
  }

  lemma Framed(glyph: string, emoji: string, name: string)
    requires |glyph| == 2
    ensures var l := glyph + emoji + name + "\n";
      |l| >= 3 && l[..2] == glyph && l[|l| - 1] == '\n' && l[2..|l| - 1] == emoji + name
  {
    var l := glyph + emoji + name + "\n";
    assert l == glyph + (emoji + name + "\n");
    assert l[2..] == emoji + name + "\n";
    assert l[2..|l| - 1] == l[2..][..|emoji + name|];
  }

  /** A line exists exactly when the value holds a space; without one the lookup of the name panics. */
  lemma LineExists(value: string, last: bool, langCode: string, english: string -> string, russian: string -> string)
    ensures Line(value, last, langCode, english, russian).Some? <==> ' ' in value
  {
    if ' ' in value {
      var (emoji, rest) := Text.Cut(value, ' ').value;
      LineRules(emoji, rest, last, langCode, english, russian);
    } else {
      Text.SplitWithoutSeparator(value, ' ');
    }
  }

  /** A panic on one key leaves no listing, whatever follows. */
  lemma {:induction false} LinesStop(countries: map<string, string>, keys: seq<string>, k: nat, n: nat, langCode: string,
                                     english: string -> string, russian: string -> string)
    requires k <= n <= |keys| && forall x :: x in keys ==> x in countries
    requires Lines(countries, keys, k, langCode, english, russian).None?
    ensures Lines(countries, keys, n, langCode, english, russian).None?
  {
    if n > k {
      assert Lines(countries, keys, n, langCode, english, russian) == LinesThrough(countries, keys, n - 1, langCode, english, russian);
      LinesStop(countries, keys, k, n - 1, langCode, english, russian);
    }
  }

  /** A line that exists extends the lines before it, and the listing's text by that line. */
  lemma LinesGrow(countries: map<string, string>, keys: seq<string>, j: nat, lines: seq<string>, line: string, langCode: string,
                  english: string -> string, russian: string -> string)
    requires j < |keys| && forall x :: x in keys ==> x in countries
    requires Lines(countries, keys, j, langCode, english, russian) == Some(lines)
    requires Line(countries[keys[j]], j == |keys| - 1, langCode, english, russian) == Some(line)
    ensures Lines(countries, keys, j + 1, langCode, english, russian) == Some(lines + [line])
    ensures Concat(lines + [line]) == Concat(lines) + line
  {
    assert Lines(countries, keys, j + 1, langCode, english, russian) == LinesThrough(countries, keys, j, langCode, english, russian);
    assert (lines + [line])[..|lines|] == lines;
  }

  /**
   * The listing holds one line per key, the i-th for the i-th sorted key and
   * only the last one marked last, and it exists exactly when every
   * configured value holds a space.
   */
  lemma {:induction false} LinesRules(countries: map<string, string>, keys: seq<string>, n: nat, langCode: string,
                                      english: string -> string, russian: string -> string)
    requires n <= |keys| && forall k :: k in keys ==> k in countries
    ensures Lines(countries, keys, n, langCode, english, russian).Some? <==> forall i :: 0 <= i < n ==> ' ' in countries[keys[i]]
    ensures Lines(countries, keys, n, langCode, english, russian).Some? ==>
      var ls := Lines(countries, keys, n, langCode, english, russian).value;
      && |ls| == n
      && forall i :: 0 <= i < n ==> Line(countries[keys[i]], i == |keys| - 1, langCode, english, russian) == Some(ls[i])
  {
    LinesExist(countries, keys, n, langCode, english, russian);
    if Lines(countries, keys, n, langCode, english, russian).Some? {
      LinesContent(countries, keys, n, langCode, english, russian);
    }
  }

  lemma {:induction false} LinesExist(countries: map<string, string>, keys: seq<string>, n: nat, langCode: string,
                                      english: string -> string, russian: string -> string)
    requires n <= |keys| && forall k :: k in keys ==> k in countries
    ensures Lines(countries, keys, n, langCode, english, russian).Some? <==> forall i :: 0 <= i < n ==> ' ' in countries[keys[i]]
  {
    if n > 0 {
      assert Lines(countries, keys, n, langCode, english, russian) == LinesThrough(countries, keys, n - 1, langCode, english, russian);
      LinesExist(countries, keys, n - 1, langCode, english, russian);
      LineExists(countries[keys[n - 1]], n - 1 == |keys| - 1, langCode, english, russian);
    }
  }

  lemma {:induction false} LinesContent(countries: map<string, string>, keys: seq<string>, n: nat, langCode: string,
                                        english: string -> string, russian: string -> string)
    requires n <= |keys| && forall k :: k in keys ==> k in countries
    requires Lines(countries, keys, n, langCode, english, russian).Some?
    ensures var ls := Lines(countries, keys, n, langCode, english, russian).value;
      && |ls| == n
      && forall i :: 0 <= i < n ==> Line(countries[keys[i]], i == |keys| - 1, langCode, english, russian) == Some(ls[i])
  {
    if n > 0 {
      assert Lines(countries, keys, n, langCode, english, russian) == LinesThrough(countries, keys, n - 1, langCode, english, russian);
      var prev := Lines(countries, keys, n - 1, langCode, english, russian);
      LinesContent(countries, keys, n - 1, langCode, english, russian);
      var ls := Lines(countries, keys, n, langCode, english, russian).value;
      assert ls == prev.value + [ls[n - 1]];
      assert forall i :: 0 <= i < n - 1 ==> ls[i] == prev.value[i];
    }
  }

  /** An empty configuration lists nothing. */
  lemma EmptyListing(countries: map<string, string>, order: seq<string>, langCode: string,
                     english: string -> string, russian: string -> string)
    requires countries == map[] && forall k :: k in order <==> k in countries
    ensures forall k :: k in SortStrings(order) ==> k in countries
    ensures Listing(countries, SortStrings(order), langCode, english, russian) == Some("")
  {
    forall x
      ensures x !in multiset(order)
    {
      assert x !in countries;
    }
    assert multiset(order) == multiset{};
  }

  /**
   * BuildAvailableCountriesLists: `order` is the order in which the runtime
   * ranges over the map, every key once; the answer is the listing of the
   * sorted keys, or None where the Go code panics.
   */
  method BuildAvailableCountriesLists(langCode: string, countries: map<string, string>, order: seq<string>,
                                      english: string -> string, russian: string -> string) returns (text: Option<string>)
    requires forall k :: k in order <==> k in countries
    requires Distinct(order)
    ensures forall k :: k in SortStrings(order) ==> k in countries
    ensures text == Listing(countries, SortStrings(order), langCode, english, russian)
  {
    var keys: seq<string> := [];
    var i := 0;
    while i < |order|
      invariant 0 <= i <= |order|
      invariant keys == order[..i]
    {
      keys := keys + [order[i]];
      i := i + 1;
    }
    assert keys == order;
    keys := SortStrings(keys);
    assert forall k :: k in keys ==> k in countries by {
      assert forall k :: k in keys <==> k in multiset(order);
    }
    text := WriteLines(langCode, countries, keys, english, russian);
  }

  /** The second loop of BuildAvailableCountriesLists: one line per sorted key into the builder. */
  method WriteLines(langCode: string, countries: map<string, string>, keys: seq<string>,
                    english: string -> string, russian: string -> string) returns (text: Option<string>)
    requires forall k :: k in keys ==> k in countries
    ensures text == Listing(countries, keys, langCode, english, russian)
  {
    var builder := "";
    ghost var lines: seq<string> := [];
    var j := 0;
    while j < |keys|
      invariant 0 <= j <= |keys|
      invariant Lines(countries, keys, j, langCode, english, russian) == Some(lines)
      invariant builder == Concat(lines)
    {
      var next := Line(countries[keys[j]], j == |keys| - 1, langCode, english, russian);
      if next.None? {
        LinesStop(countries, keys, j + 1, |keys|, langCode, english, russian);
        return None;
      }
      var line := next.value;
      LinesGrow(countries, keys, j, lines, line, langCode, english, russian);
      builder := builder + line;
      lines := lines + [line];
      j := j + 1;
    }
    return Some(builder);
  }
}
