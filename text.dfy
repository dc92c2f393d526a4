/** String helpers behind every search box of the dashboard:
    `toLowerCase`, `toUpperCase`, `includes`, and the case-insensitive
    substring filter built from them. Case mapping covers ASCII and the
    Latin-1 letters (the accented letters of Portuguese names), except
    that upper-casing leaves ß, ÿ and µ unchanged: their upper case lies
    outside Latin-1 or is two characters. */
module Text {
  import opened Base

  /** `c.toLowerCase()` on ASCII and Latin-1 letters. */
  function LowerChar(c: char): char
  {
    if 'A' <= c <= 'Z' || ('À' <= c <= 'Þ' && c != '×')
    then (c as int + 32) as char
    else c
  }

  /** `c.toUpperCase()` on ASCII and Latin-1 letters, except ß, ÿ and µ,
      which it leaves unchanged. */
  function UpperChar(c: char): char
  {
    if 'a' <= c <= 'z' || ('à' <= c <= 'þ' && c != '÷')
    then (c as int - 32) as char
    else c
  }

  function Lower(s: string): (r: string)
    ensures |r| == |s|
  {
    seq(|s|, i requires 0 <= i < |s| => LowerChar(s[i]))
  }

  function Upper(s: string): (r: string)
    ensures |r| == |s|
  {
    seq(|s|, i requires 0 <= i < |s| => UpperChar(s[i]))
  }

  /** Lower-casing a string that was upper-cased, or lower-cased, gives the
      same as lower-casing the original: case is forgotten. */
  lemma LowerForgetsCase(s: string)
    ensures Lower(Upper(s)) == Lower(s)
    ensures Lower(Lower(s)) == Lower(s)
  {
  }

  lemma UpperForgetsCase(s: string)
    ensures Upper(Lower(s)) == Upper(s)
    ensures Upper(Upper(s)) == Upper(s)
  {
  }

  /** `s.startsWith(p)`. */
  predicate StartsWith(s: string, p: string)
  {
    |p| <= |s| && s[..|p|] == p
  }

  /** `hay.includes(needle)`: needle occurs at some offset of hay. */
  predicate Includes(hay: string, needle: string)
    decreases |hay|
  {
    StartsWith(hay, needle) || (|hay| > 0 && Includes(hay[1..], needle))
  }

  /** The needle occurs in hay at offset i. */
  predicate OccursAt(hay: string, needle: string, i: int)
  {
    0 <= i <= |hay| - |needle| && hay[i..i + |needle|] == needle
  }

  /** `Includes` holds exactly when the needle occurs at some offset. */
  lemma {:induction false} IncludesAt(hay: string, needle: string)
    ensures Includes(hay, needle) <==> exists i :: OccursAt(hay, needle, i)
    decreases |hay|
  {
    if StartsWith(hay, needle) {
      assert OccursAt(hay, needle, 0);
    }
    if |hay| > 0 {
      IncludesAt(hay[1..], needle);
      if Includes(hay[1..], needle) {
        var i :| OccursAt(hay[1..], needle, i);
        assert hay[i + 1..i + 1 + |needle|] == hay[1..][i..i + |needle|];
        assert OccursAt(hay, needle, i + 1);
      }
      if exists i :: OccursAt(hay, needle, i) {
        var i :| OccursAt(hay, needle, i);
        if i > 0 {
          assert hay[1..][i - 1..i - 1 + |needle|] == hay[i..i + |needle|];
          assert OccursAt(hay[1..], needle, i - 1);
        }
      }
    }
  }

  /** `text.toLowerCase().includes(term.toLowerCase())`: the test every
      search box of the dashboard applies. */
  predicate MatchesSearch(text: string, term: string)
  {
    Includes(Lower(text), Lower(term))
  }

  /** The search matches exactly when the lower-cased term occurs somewhere
      in the lower-cased text. */
  lemma MatchesSearchAt(text: string, term: string)
    ensures MatchesSearch(text, term) <==> exists i :: OccursAt(Lower(text), Lower(term), i)
  {
    IncludesAt(Lower(text), Lower(term));
  }

  /** An empty search term matches every text, and any text matches itself
      whatever the case it was typed in. */
  lemma MatchesTrivially(text: string)
    ensures MatchesSearch(text, "")
    ensures MatchesSearch(text, text)
    ensures MatchesSearch(text, Upper(text))
  {
    LowerForgetsCase(text);
  }

  /** The search ignores the case of the term and of the text. */
  lemma MatchesIgnoresCase(text: string, term: string)
    ensures MatchesSearch(text, Upper(term)) == MatchesSearch(text, term)
    ensures MatchesSearch(text, Lower(term)) == MatchesSearch(text, term)
    ensures MatchesSearch(Upper(text), term) == MatchesSearch(text, term)
  {
    LowerForgetsCase(term);
    LowerForgetsCase(text);
  }

  /** The test a search box applies to one element. */
  function SearchKeep<T>(field: T -> string, term: string): T -> bool
  {
    x => MatchesSearch(field(x), term)
  }

  /** `xs.filter(x => field(x).toLowerCase().includes(term.toLowerCase()))`:
      the elements whose field matches, in input order. */
  function SearchFilter<T>(xs: seq<T>, field: T -> string, term: string): (r: seq<T>)
    ensures |r| <= |xs|
    ensures forall i :: 0 <= i < |r| ==> MatchesSearch(field(r[i]), term)
    ensures forall x :: x in xs && MatchesSearch(field(x), term) ==> x in r
    ensures forall x :: x in r ==> x in xs
  {
    var r := Filter(xs, SearchKeep(field, term));
    assert forall i :: 0 <= i < |r| ==> r[i] in r;
    r
  }

  /** The search keeps the matching elements in their order: it splits over
      a concatenation, and one element stays exactly when it matches. */
  lemma SearchFilterKeepsOrder<T>(a: seq<T>, b: seq<T>, field: T -> string, term: string)
    ensures SearchFilter(a + b, field, term) == SearchFilter(a, field, term) + SearchFilter(b, field, term)
    ensures |b| == 1 ==> SearchFilter(b, field, term) == if MatchesSearch(field(b[0]), term) then b else []
  {
    FilterAppend(a, b, SearchKeep(field, term));
    if |b| == 1 {
      assert b == [b[0]];
      FilterOne(b[0], SearchKeep(field, term));
    }
  }

  /** A matching element appears as often as in the input, any other never. */
  lemma SearchFilterCounts<T>(xs: seq<T>, field: T -> string, term: string)
    ensures forall x :: multiset(SearchFilter(xs, field, term))[x] ==
                        if MatchesSearch(field(x), term) then multiset(xs)[x] else 0
  {
    FilterCounts(xs, SearchKeep(field, term));
  }

  /** An empty search term keeps the whole list, in order. */
  lemma EmptySearchKeepsAll<T>(xs: seq<T>, field: T -> string)
    ensures SearchFilter(xs, field, "") == xs
  {
    forall x | x in xs
      ensures SearchKeep(field, "")(x)
    {
      MatchesTrivially(field(x));
    }
    FilterKeepsAll(xs, SearchKeep(field, ""));
  }
}
