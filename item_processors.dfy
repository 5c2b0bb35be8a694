/**
 The two text helpers defined beside the item-loader spider: `clean_quote`, which
 takes the typographic quotation marks off a scraped quote (the spider applies it to
 every quote), and `make_tags_in_string`, which turns a tag list into one
 comma-separated string (the spider does not call it).
 */
module ItemProcessors {
  import opened Strings

  const LeftQuote: char := '\U{201C}'   // “
  const RightQuote: char := '\U{201D}'  // ”
  const TagSeparator: string := ", "

  /** The scraped text with every curly quotation mark deleted, before trimming. */
  function DropCurlyQuotes(text: string): (d: string)
    ensures LeftQuote !in d && RightQuote !in d
  {
    RemoveCharKeepsOut(RemoveChar(text, LeftQuote), RightQuote, LeftQuote);
    RemoveChar(RemoveChar(text, LeftQuote), RightQuote)
  }

  /** `clean_quote`: deletes both curly quotation marks, then strips outer whitespace. */
  function CleanQuote(text: string): (r: string)
    ensures LeftQuote !in r && RightQuote !in r
    ensures IsTrimmed(r)
  {
    var d := DropCurlyQuotes(text);
    StripIsOuterTrim(d);
    OuterTrimKeepsOut(Strip(d), d, LeadingWhitespace(d), LeftQuote);
    OuterTrimKeepsOut(Strip(d), d, LeadingWhitespace(d), RightQuote);
    Strip(d)
  }

  /** What is left of the text keeps its order: the result is the text without its curly
      quotation marks, with only the whitespace at its two ends taken off. */
  lemma CleanQuoteKeepsOrder(text: string)
    ensures var d := DropCurlyQuotes(text); IsOuterTrimAt(CleanQuote(text), d, LeadingWhitespace(d))
  {
    StripIsOuterTrim(DropCurlyQuotes(text));
  }

  /** Deleting the curly quotation marks removes exactly those and keeps the rest in order. */
  lemma DropCurlyQuotesDeletesOnly(a: string, b: string)
    ensures multiset(DropCurlyQuotes(a)) == multiset(a)[LeftQuote := 0][RightQuote := 0]
    ensures DropCurlyQuotes(a + b) == DropCurlyQuotes(a) + DropCurlyQuotes(b)
  {
    RemoveCharAppend(a, b, LeftQuote);
    RemoveCharAppend(RemoveChar(a, LeftQuote), RemoveChar(b, LeftQuote), RightQuote);
  }

  /** A text with no curly quotation mark and no outer whitespace comes back unchanged. */
  lemma CleanQuoteUnchanged(text: string)
    requires LeftQuote !in text && RightQuote !in text
    requires IsTrimmed(text)
    ensures CleanQuote(text) == text
  {
    RemoveCharAbsent(text, LeftQuote);
    RemoveCharAbsent(text, RightQuote);
  }

  /** Cleaning a cleaned quote changes nothing. */
  lemma CleanQuoteIdempotent(text: string)
    ensures CleanQuote(CleanQuote(text)) == CleanQuote(text)
  {
    CleanQuoteUnchanged(CleanQuote(text));
  }

  /** `make_tags_in_string`: the tags joined with `", "`. */
  function MakeTagsInString(tags: seq<string>): string {
    Join(tags, TagSeparator)
  }

  /** No tags give the empty string, one tag gives that tag, and each further tag adds
      its own length and two characters of separator. */
  lemma MakeTagsInStringShape(tags: seq<string>)
    ensures tags == [] ==> MakeTagsInString(tags) == ""
    ensures |tags| == 1 ==> MakeTagsInString(tags) == tags[0]
    ensures |tags| >= 1 ==> |MakeTagsInString(tags)| == SumLengths(tags) + 2 * (|tags| - 1)
  {
    if |tags| >= 1 {
      JoinLength(tags, TagSeparator);
    }
  }
}
