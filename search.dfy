/**
 * `handleSearchInput`: the help-article list is filtered as the customer
 * types; an article stays shown exactly when its text, lower-cased, contains
 * the lower-cased search value.
 *
 * The list is the sequence of article texts and one `shown` flag per
 * article stands for its `display` style (`flex` or `none`).
 */
module Search {
  import opened Text

  /** Whether an article with `text` stays shown while the search box holds `value`. */
  predicate Matches(text: string, value: string)
  {
    Contains(Lower(text), Lower(value))
  }

  /** Which articles are shown for `value`. */
  function Visible(articles: seq<string>, value: string): seq<bool>
  {
    seq(|articles|, i requires 0 <= i < |articles| => Matches(articles[i], value))
  }

  /** The input handler: every article's flag is set from its own text. */
  method HandleSearchInput(articles: seq<string>, shown: array<bool>, value: string)
    requires shown.Length == |articles|
    modifies shown
    ensures shown[..] == Visible(articles, value)
  {
    var term := Lower(value);
    for i := 0 to shown.Length
      invariant forall j :: 0 <= j < i ==> shown[j] == Matches(articles[j], value)
    {
      shown[i] := Contains(Lower(articles[i]), term);
    }
  }

  lemma LowerAppend(a: string, b: string)
    ensures Lower(a + b) == Lower(a) + Lower(b)
  {
  }

  /** Lower-casing twice is lower-casing once. */
  lemma LowerIdempotent(s: string)
    ensures Lower(Lower(s)) == Lower(s)
  {
    forall i | 0 <= i < |s|
      ensures Lower(Lower(s))[i] == Lower(s)[i]
    {
      assert Lower(s)[i] == LowerChar(s[i]);
    }
  }

  lemma ContainsPrefix(a: string, b: string)
    ensures Contains(a + b, a)
  {
    assert OccursAt(a + b, a, 0);
  }

  /** An empty search box shows every article. */
  lemma EmptyShowsAll(articles: seq<string>)
    ensures forall i :: 0 <= i < |articles| ==> Visible(articles, "")[i]
  {
    forall i | 0 <= i < |articles|
      ensures Matches(articles[i], "")
    {
      assert OccursAt(Lower(articles[i]), Lower(""), 0);
    }
  }

  /** Typing more can only hide articles: one shown for a longer value was shown before. */
  lemma TypingNarrows(text: string, value: string, more: string)
    requires Matches(text, value + more)
    ensures Matches(text, value)
  {
    LowerAppend(value, more);
    ContainsPrefix(Lower(value), Lower(more));
    ContainsTrans(Lower(text), Lower(value + more), Lower(value));
  }

  /** The filter ignores the case of both the value and the article text. */
  lemma CaseInsensitive(text: string, value: string)
    ensures Matches(text, Lower(value)) == Matches(text, value)
    ensures Matches(Lower(text), value) == Matches(text, value)
  {
    LowerIdempotent(value);
    LowerIdempotent(text);
  }

  /** Searching for an article's own text, in any case, keeps it shown. */
  lemma OwnTextShown(text: string)
    ensures Matches(text, Lower(text)) && Matches(Lower(text), text)
  {
    LowerIdempotent(text);
    assert OccursAt(Lower(text), Lower(text), 0);
  }
}
