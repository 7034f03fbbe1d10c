// The search for a name inside display names: the query's own wildcard characters are escaped before it
// becomes a LIKE pattern.
module LikePattern {
  // Each character of the query, with an escape in front of the three special ones.
  function Escaped(query: string): string {
    if query == [] then []
    else
      (if query[0] == '!' then "!!" else if query[0] == '%' then "!%" else if query[0] == '_' then "!_" else [query[0]])
      + Escaped(query[1..])
  }

  function LiteralNamePattern(query: string): string {
    "%" + Escaped(query) + "%"
  }

  // ILIKE with ESCAPE '!', as SQL defines it: '%' stands for any text, '_' for one character, '!' makes the
  // next character stand for itself; letters are compared after folding their case. A pattern that ends in
  // the escape character matches nothing.
  predicate Like(fold: char -> char, pattern: string, text: string)
    decreases |pattern| + |text|
  {
    if pattern == [] then text == []
    else if pattern[0] == '%' then
      Like(fold, pattern[1..], text) || (text != [] && Like(fold, pattern, text[1..]))
    else if text == [] then false
    else if pattern[0] == '_' then Like(fold, pattern[1..], text[1..])
    else if pattern[0] == '!' then
      |pattern| > 1 && fold(pattern[1]) == fold(text[0]) && Like(fold, pattern[2..], text[1..])
    else fold(pattern[0]) == fold(text[0]) && Like(fold, pattern[1..], text[1..])
  }

  predicate StartsWith(fold: char -> char, text: string, query: string) {
    |query| <= |text| && forall k :: 0 <= k < |query| ==> fold(text[k]) == fold(query[k])
  }

  predicate Contains(fold: char -> char, text: string, query: string) {
    exists i: nat :: i <= |text| && StartsWith(fold, text[i..], query)
  }

  lemma {:induction false} AnythingMatches(fold: char -> char, text: string)
    ensures Like(fold, "%", text)
  {
    if text == [] {
      assert Like(fold, "%"[1..], text);
    } else {
      AnythingMatches(fold, text[1..]);
    }
  }

  // The escaped query stands for itself, character by character.
  lemma {:induction false} EscapedMatchesItself(fold: char -> char, query: string, rest: string, text: string)
    ensures Like(fold, Escaped(query) + rest, text)
       <==> StartsWith(fold, text, query) && Like(fold, rest, text[|query|..])
    decreases |query|
  {
    var pattern := Escaped(query) + rest;
    if query == [] {
      assert pattern == rest && text[0..] == text;
    } else {
      var tail := Escaped(query[1..]) + rest;
      if query[0] == '!' || query[0] == '%' || query[0] == '_' {
        assert pattern[2..] == tail && pattern[0] == '!' && pattern[1] == query[0];
      } else {
        assert pattern[1..] == tail && pattern[0] == query[0];
      }
      if text != [] {
        EscapedMatchesItself(fold, query[1..], rest, text[1..]);
        StartsWithHead(fold, text, query);
        if |query| <= |text| { assert text[1..][|query| - 1..] == text[|query|..]; }
      }
    }
  }

  lemma StartsWithHead(fold: char -> char, text: string, query: string)
    requires text != [] && query != []
    ensures StartsWith(fold, text, query) <==>
              fold(text[0]) == fold(query[0]) && StartsWith(fold, text[1..], query[1..])
  {
  }

  lemma ContainsTail(fold: char -> char, text: string, query: string)
    requires text != []
    ensures Contains(fold, text, query) <==> StartsWith(fold, text, query) || Contains(fold, text[1..], query)
  {
    if i: nat :| i <= |text| && StartsWith(fold, text[i..], query) {
      if i == 0 {
        assert text[0..] == text;
      } else {
        assert text[i..] == text[1..][i - 1..];
      }
    }
    if StartsWith(fold, text, query) { assert text[0..] == text; }
    if i: nat :| i <= |text[1..]| && StartsWith(fold, text[1..][i..], query) {
      assert text[1..][i..] == text[i + 1..];
    }
  }

  // The pattern finds exactly the names that contain the query, whatever characters the query holds.
  lemma {:induction false} PatternMeansContains(fold: char -> char, query: string, text: string)
    ensures Like(fold, LiteralNamePattern(query), text) <==> Contains(fold, text, query)
    decreases |text|
  {
    var pattern := LiteralNamePattern(query);
    assert pattern[1..] == Escaped(query) + "%";
    EscapedMatchesItself(fold, query, "%", text);
    if |query| <= |text| { AnythingMatches(fold, text[|query|..]); }
    if text == [] {
      assert forall i: nat :: i <= |text| ==> text[i..] == text;
      assert text[0..] == text;
    } else {
      PatternMeansContains(fold, query, text[1..]);
      ContainsTail(fold, text, query);
    }
  }

  // Without the escapes a query of one wildcard would find every non-empty name.
  lemma UnescapedFindsEverything(fold: char -> char, text: string)
    requires text != []
    ensures Like(fold, "%" + "_" + "%", text)
    ensures (forall k :: 0 <= k < |text| ==> fold(text[k]) != fold('_')) ==> !Like(fold, LiteralNamePattern("_"), text)
  {
    var pattern := "%" + "_" + "%";
    assert pattern[1..] == "_%" && "_%"[1..] == "%";
    AnythingMatches(fold, text[1..]);
    assert Like(fold, pattern[1..], text);
    PatternMeansContains(fold, "_", text);
    if i: nat :| i <= |text| && StartsWith(fold, text[i..], "_") {
      assert fold(text[i..][0]) == fold("_"[0]);
      assert text[i..][0] == text[i];
    }
  }
}
