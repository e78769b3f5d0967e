/** The landing page's testimonial carousel (src/pages/LandingPage.jsx):
    long testimonials are cut to a word limit, with one card at a time
    expandable to its full text. */
module Landing {
  import opened Wrappers
  import opened Text

  datatype Trimmed = Trimmed(short: string, trimmed: bool)

  const DefaultMaxWords := 100

  /** `trimText(text, maxWords)`: the words are what `split(' ')` returns. */
  function TrimText(text: string, maxWords: nat): (r: Trimmed)
    ensures r.trimmed <==> Count(text, ' ') >= maxWords
    ensures !r.trimmed ==> r.short == text
    ensures r.trimmed ==> r.short == FirstWords(text, maxWords) + "..."
  {
    SplitLength(text, ' ');
    var words := Split(text, ' ');
    if |words| > maxWords then Trimmed(Join(words[..maxWords], ' ') + "...", true)
    else Trimmed(text, false)
  }

  /** A cut testimonial shows a whole-word prefix of the text holding exactly
      `maxWords` words, then "...". */
  lemma TrimmedIsWordPrefix(text: string, maxWords: nat)
    requires maxWords >= 1 && TrimText(text, maxWords).trimmed
    ensures var s := TrimText(text, maxWords).short;
            |s| >= 3 && s[|s| - 3..] == "..."
            && StartsWith(text, s[..|s| - 3] + " ")
            && |Split(s, ' ')| == maxWords
  {
    var p := FirstWords(text, maxWords);
    FirstWordsCut(text, maxWords);
    var s := p + "...";
    assert s[..|s| - 3] == p;
    CountEllipsis(p);
    SplitLength(s, ' ');
  }

  /** The card for `id`: its text, and the label of its button when it has one. */
  datatype Card = Card(text: string, button: Option<string>)

  /** Lines 187-189 and 213-222. */
  function CardFor(id: int, text: string, expanded: Option<int>): (c: Card)
    ensures c.button.Some? <==> TrimText(text, DefaultMaxWords).trimmed
    ensures expanded == Some(id) ==> c.text == text
    ensures expanded != Some(id) ==> c.text == TrimText(text, DefaultMaxWords).short
    ensures c.button.Some? ==> (c.button.value == "Show Less" <==> expanded == Some(id))
    ensures c.button.Some? ==> (c.button.value == "Read More" <==> expanded != Some(id))
  {
    var t := TrimText(text, DefaultMaxWords);
    var isExpanded := expanded == Some(id);
    Card(if isExpanded then text else t.short,
         if t.trimmed then Some(if isExpanded then "Show Less" else "Read More") else None)
  }

  /** The button's click: `setExpanded(isExpanded ? null : t.id)`. */
  function Toggle(expanded: Option<int>, id: int): (e: Option<int>)
    ensures expanded == Some(id) ==> e.None?
    ensures expanded != Some(id) ==> e == Some(id)
  {
    if expanded == Some(id) then None else Some(id)
  }

  /** Clicking a card's button expands that card and collapses any other;
      clicking it again collapses it. */
  lemma ToggleExpandsOne(expanded: Option<int>, id: int, other: int, text: string, otherText: string)
    requires expanded != Some(id) && other != id
    ensures CardFor(id, text, Toggle(expanded, id)).text == text
    ensures CardFor(other, otherText, Toggle(expanded, id)).text == TrimText(otherText, DefaultMaxWords).short
    ensures Toggle(Toggle(expanded, id), id).None?
  {
  }
}
