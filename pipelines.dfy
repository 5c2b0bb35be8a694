/**
 The two item pipelines of the scraper. `CleanDataPipeline` normalises a scraped item
 in place: it trims the quote and the author and turns the `tags` entry, whatever its
 shape, into a list of trimmed, non-empty tags. `SaveToCsvPipeline` owns the output
 file: it writes the header when the crawl opens, one unescaped CSV line per item,
 and closes the file when the crawl ends.
 */
module Pipelines {
  import opened Strings
  import opened Wrappers
  import ItemProcessors

  // ----- the item -----

  /** How one entry of an item stands: the key is missing, it holds Python's `None`,
      or it holds a value. The sink writes the first two differently. */
  datatype Slot<T> = Absent | Null | Val(value: T)

  /** The shapes a `tags` value comes in: one string, a list or tuple of strings, or any
      other object, carried as the text `str()` gives for it. */
  datatype TagsValue = Text(s: string) | Seq(xs: seq<string>) | Other(s: string)

  /** The three entries of an item the pipelines read and write. */
  datatype Record = Record(quote: Slot<string>, author: Slot<string>, tags: Slot<TagsValue>)

  /** A scraped item, updated in place by the cleaning pipeline. */
  class Item {
    var quote: Slot<string>
    var author: Slot<string>
    var tags: Slot<TagsValue>
    /** The item's remaining entries, which no pipeline touches. */
    var others: map<string, string>

    constructor (r: Record, others: map<string, string>)
      ensures Value() == r && this.others == others
    {
      quote, author, tags := r.quote, r.author, r.tags;
      this.others := others;
    }

    function Value(): Record
      reads this
    {
      Record(quote, author, tags)
    }
  }

  // ----- cleaning -----

  /** Python truthiness of a text entry: present, not `None`, not empty. */
  predicate IsTruthy(f: Slot<string>) {
    f.Val? && f.value != ""
  }

  /** Every tag is non-empty and has no whitespace at either end. */
  predicate IsCleanTags(tags: seq<string>) {
    forall i :: 0 <= i < |tags| ==> tags[i] != "" && IsTrimmed(tags[i])
  }

  /** Strips every part and keeps the non-empty results, in order. */
  function CleanParts(parts: seq<string>): (tags: seq<string>)
    ensures IsCleanTags(tags)
    ensures |tags| <= |parts|
  {
    if |parts| == 0 then []
    else
      var t := Strip(parts[0]);
      (if t != "" then [t] else []) + CleanParts(parts[1..])
  }

  /** The cleaned tag list, by the shape of the `tags` value. */
  function CleanTags(v: TagsValue): (tags: seq<string>)
    ensures IsCleanTags(tags)
  {
    match v
    case Text(s) => if ',' in s then CleanParts(Split(s, ',')) else CleanParts([s])
    case Seq(xs) => CleanParts(xs)
    case Other(s) => var one := Strip(s); if one != "" then [one] else []
  }

  /** A quote or author entry after cleaning: a truthy text is stripped, anything else kept. */
  function CleanText(f: Slot<string>): (r: Slot<string>)
    ensures IsTruthy(f) ==> r.Val? && IsTrimmed(r.value) && |r.value| <= |f.value|
    ensures !IsTruthy(f) ==> r == f
  {
    if IsTruthy(f) then Val(Strip(f.value)) else f
  }

  /** A record as the cleaning pipeline leaves it. */
  predicate IsCanonical(r: Record) {
    && (r.quote.Val? ==> IsTrimmed(r.quote.value))
    && (r.author.Val? ==> IsTrimmed(r.author.value))
    && (r.tags.Val? ==> r.tags.value.Seq? && IsCleanTags(r.tags.value.xs))
  }

  /** The effect of `CleanDataPipeline.process_item` on the three entries. */
  function Normalize(r: Record): (n: Record)
    ensures IsCanonical(n)
    ensures !IsTruthy(r.quote) ==> n.quote == r.quote
    ensures !IsTruthy(r.author) ==> n.author == r.author
    ensures r.quote.Val? ==> n.quote.Val? && |n.quote.value| <= |r.quote.value|
    ensures r.author.Val? ==> n.author.Val? && |n.author.value| <= |r.author.value|
    ensures !r.tags.Val? ==> n.tags == r.tags
    ensures r.tags.Val? ==> n.tags.Val? && n.tags.value.Seq?
  {
    Record(CleanText(r.quote), CleanText(r.author),
           if r.tags.Val? then Val(Seq(CleanTags(r.tags.value))) else r.tags)
  }

  class CleanDataPipeline {
    constructor () {}

    /** Rewrites the item's quote, author and tags in place and returns the same item. */
    method ProcessItem(item: Item) returns (result: Item)
      modifies item`quote, item`author, item`tags
      ensures result == item
      ensures item.Value() == Normalize(old(item.Value()))
      ensures item.others == old(item.others)
    {
      if IsTruthy(item.quote) {
        item.quote := Val(Strip(item.quote.value));
      }
      if IsTruthy(item.author) {
        item.author := Val(Strip(item.author.value));
      }
      if item.tags.Val? {
        var cleaned := CleanTags(item.tags.value);
        item.tags := Val(Seq(cleaned));
      }
      result := item;
    }
  }

  // ----- properties of cleaning -----

  /** Cleaning parts acts part by part: it keeps the order and never merges or splits parts. */
  lemma {:induction false} CleanPartsAppend(a: seq<string>, b: seq<string>)
    ensures CleanParts(a + b) == CleanParts(a) + CleanParts(b)
  {
    if |a| == 0 {
      assert a + b == b;
    } else {
      assert (a + b)[1..] == a[1..] + b;
      CleanPartsAppend(a[1..], b);
    }
  }

  /** One part gives its stripped text, or nothing when that is empty. */
  lemma CleanPartsSingle(p: string)
    ensures CleanParts([p]) == if Strip(p) == "" then [] else [Strip(p)]
  {
    assert [p][1..] == [];
  }

  /** Parts made only of whitespace vanish altogether. */
  lemma {:induction false} CleanPartsAllBlank(parts: seq<string>)
    requires forall i :: 0 <= i < |parts| ==> AllWhitespace(parts[i])
    ensures CleanParts(parts) == []
  {
    if |parts| > 0 {
      StripBlank(parts[0]);
      CleanPartsAllBlank(parts[1..]);
    }
  }

  /** Nothing is dropped when every part has some non-whitespace text. */
  lemma {:induction false} CleanPartsKeepsAll(parts: seq<string>)
    requires forall i :: 0 <= i < |parts| ==> !AllWhitespace(parts[i])
    ensures |CleanParts(parts)| == |parts|
    ensures forall i :: 0 <= i < |parts| ==> CleanParts(parts)[i] == Strip(parts[i])
  {
    if |parts| > 0 {
      StripBlank(parts[0]);
      CleanPartsKeepsAll(parts[1..]);
    }
  }

  /** Already clean tags come back unchanged. */
  lemma {:induction false} CleanPartsOfClean(tags: seq<string>)
    requires IsCleanTags(tags)
    ensures CleanParts(tags) == tags
  {
    if |tags| > 0 {
      CleanPartsOfClean(tags[1..]);
      assert [tags[0]] + tags[1..] == tags;
    }
  }

  /** A string value is always split on commas, trimmed part by part, with the empty
      parts dropped: the comma-free branch agrees with that rule. */
  lemma CleanTextIsSplit(s: string)
    ensures CleanTags(Text(s)) == CleanParts(Split(s, ','))
  {
    if ',' !in s {
      SplitWithout(s, ',');
    }
  }

  /** A comma-free string becomes one tag, or none; never a list of its characters. */
  lemma CleanTextWithoutComma(s: string)
    requires ',' !in s
    ensures CleanTags(Text(s)) == if Strip(s) == "" then [] else [Strip(s)]
  {
    CleanPartsSingle(s);
  }

  /** A list of tags is trimmed element by element, blanks removed, order kept: the
      result is never longer, and a list of blanks becomes the empty list. */
  lemma CleanSeqShape(xs: seq<string>)
    ensures |CleanTags(Seq(xs))| <= |xs|
    ensures (forall i :: 0 <= i < |xs| ==> AllWhitespace(xs[i])) ==> CleanTags(Seq(xs)) == []
    ensures (forall i :: 0 <= i < |xs| ==> !AllWhitespace(xs[i])) ==>
              |CleanTags(Seq(xs))| == |xs| &&
              forall i :: 0 <= i < |xs| ==> CleanTags(Seq(xs))[i] == Strip(xs[i])
  {
    if forall i :: 0 <= i < |xs| ==> AllWhitespace(xs[i]) {
      CleanPartsAllBlank(xs);
    }
    if forall i :: 0 <= i < |xs| ==> !AllWhitespace(xs[i]) {
      CleanPartsKeepsAll(xs);
    }
  }

  /** Cleaning cleaned tags changes nothing, whatever shape they started in. */
  lemma CleanTagsIdempotent(v: TagsValue)
    ensures CleanTags(Seq(CleanTags(v))) == CleanTags(v)
  {
    CleanPartsOfClean(CleanTags(v));
  }

  /** A canonical record is a fixed point of cleaning. */
  lemma NormalizeCanonical(r: Record)
    requires IsCanonical(r)
    ensures Normalize(r) == r
  {
    if r.tags.Val? {
      CleanPartsOfClean(r.tags.value.xs);
    }
  }

  /** Running the cleaning pipeline on its own output leaves quote, author and tags as they are. */
  lemma NormalizeIdempotent(r: Record)
    ensures Normalize(Normalize(r)) == Normalize(r)
  {
    NormalizeCanonical(Normalize(r));
  }

  /** Tags prefixed with one space each. */
  function SpacePrefixed(xs: seq<string>): (ys: seq<string>)
    ensures |ys| == |xs|
    ensures forall i :: 0 <= i < |xs| ==> ys[i] == " " + xs[i]
  {
    if |xs| == 0 then [] else [" " + xs[0]] + SpacePrefixed(xs[1..])
  }

  predicate CommaFree(tags: seq<string>) {
    forall i :: 0 <= i < |tags| ==> ',' !in tags[i]
  }

  /** What follows the first comma of a `", "` join splits into the remaining tags with
      their leading space. */
  lemma {:induction false} SplitSpaced(xs: seq<string>)
    requires |xs| >= 1 && CommaFree(xs)
    ensures Split(" " + Join(xs, ItemProcessors.TagSeparator), ',') == SpacePrefixed(xs)
  {
    if |xs| == 1 {
      SplitWithout(" " + xs[0], ',');
    } else {
      SplitSpaced(xs[1..]);
      var rest := " " + Join(xs[1..], ItemProcessors.TagSeparator);
      assert " " + Join(xs, ItemProcessors.TagSeparator) == (" " + xs[0]) + [','] + rest by {
        JoinAtComma(xs);
        assert " " + (xs[0] + [','] + rest) == (" " + xs[0]) + [','] + rest;
      }
      SplitAtFirst(" " + xs[0], ',', rest);
      assert SpacePrefixed(xs) == [" " + xs[0]] + SpacePrefixed(xs[1..]);
    }
  }

  /** A `", "` join of two or more tags is the first tag, a comma, then a space and the rest. */
  lemma JoinAtComma(xs: seq<string>)
    requires |xs| >= 2
    ensures Join(xs, ItemProcessors.TagSeparator) == xs[0] + [','] + (" " + Join(xs[1..], ItemProcessors.TagSeparator))
  {
    var j := Join(xs[1..], ItemProcessors.TagSeparator);
    assert Join(xs, ItemProcessors.TagSeparator) == xs[0] + ItemProcessors.TagSeparator + j;
    assert ItemProcessors.TagSeparator == [','] + " ";
  }

  /** One leading space is stripped off a clean tag. */
  lemma StripSpace(t: string)
    requires t != "" && IsTrimmed(t)
    ensures Strip(" " + t) == t
  {
    assert (" " + t)[1..] == t;
  }

  /** Clean tags with one leading space each clean back to themselves. */
  lemma {:induction false} CleanSpacePrefixed(xs: seq<string>)
    requires IsCleanTags(xs)
    ensures CleanParts(SpacePrefixed(xs)) == xs
  {
    if |xs| > 0 {
      StripSpace(xs[0]);
      CleanSpacePrefixed(xs[1..]);
      assert SpacePrefixed(xs)[1..] == SpacePrefixed(xs[1..]);
      assert [xs[0]] + xs[1..] == xs;
    }
  }

  /** A `", "` join of comma-free tags splits on commas into the first tag and the
      others with their leading space. */
  lemma SplitCommaJoin(tags: seq<string>)
    requires |tags| >= 1 && CommaFree(tags)
    ensures Split(Join(tags, ItemProcessors.TagSeparator), ',') == [tags[0]] + SpacePrefixed(tags[1..])
  {
    if |tags| == 1 {
      SplitWithout(tags[0], ',');
    } else {
      JoinAtComma(tags);
      SplitAtFirst(tags[0], ',', " " + Join(tags[1..], ItemProcessors.TagSeparator));
      SplitSpaced(tags[1..]);
    }
  }

  /** Joining clean, comma-free tags with `", "` (as the all-pages spider does) and
      cleaning the resulting string gives back exactly those tags. */
  lemma JoinCleanRoundTrip(tags: seq<string>)
    requires IsCleanTags(tags) && CommaFree(tags)
    ensures CleanTags(Text(ItemProcessors.MakeTagsInString(tags))) == tags
  {
    var s := Join(tags, ItemProcessors.TagSeparator);
    assert ItemProcessors.MakeTagsInString(tags) == s;
    CleanTextIsSplit(s);
    if |tags| == 0 {
      CleanPartsSingle("");
    } else {
      calc {
        CleanParts(Split(s, ','));
        { SplitCommaJoin(tags); }
        CleanParts([tags[0]] + SpacePrefixed(tags[1..]));
        { CleanPartsAppend([tags[0]], SpacePrefixed(tags[1..])); }
        CleanParts([tags[0]]) + CleanParts(SpacePrefixed(tags[1..]));
        { CleanPartsSingle(tags[0]); CleanSpacePrefixed(tags[1..]); }
        [tags[0]] + tags[1..];
      }
      assert [tags[0]] + tags[1..] == tags;
    }
  }

  /** Worked example: a joined string splits back into its tags. */
  lemma CleanExampleJoined()
    ensures CleanTags(Text("a, b, c")) == ["a", "b", "c"]
  {
    var tags := ["a", "b", "c"];
    assert Join(tags, ItemProcessors.TagSeparator) == "a, b, c" by {
      assert tags[1..] == ["b", "c"];
      assert tags[1..][1..] == ["c"];
    }
    JoinCleanRoundTrip(tags);
  }

  /** Worked example: a comma-free string is one tag, not a list of its characters. */
  lemma CleanExampleSolo()
    ensures CleanTags(Text("solo")) == ["solo"]
  {
    assert Strip("solo") == "solo";
    CleanTextWithoutComma("solo");
  }

  /** Worked example: a list is stripped element by element and its blanks dropped. */
  lemma CleanExampleList()
    ensures CleanTags(Seq(["  x ", "", "  "])) == ["x"]
  {
    assert Strip("  x ") == "x" by {
      assert "  x "[1..] == " x ";
      assert " x "[1..] == "x ";
      assert "x "[..1] == "x";
    }
    CleanPartsSingle("  x ");
    CleanPartsAllBlank(["", "  "]);
    CleanPartsAppend(["  x "], ["", "  "]);
    assert ["  x "] + ["", "  "] == ["  x ", "", "  "];
  }

  // ----- the CSV sink -----

  datatype SinkState = Unopened | Open | Closed

  const Header: string := "quote,author,tags\n"

  /** A text entry as the f-string writes it; a missing key defaults to `''`. */
  function FieldText(f: Slot<string>): string {
    match f
    case Absent => ""
    case Null => "None"
    case Val(s) => s
  }

  /** The tags column: a list is joined with `", "`, anything else is written as its
      stripped text; a missing key defaults to `[]`, which joins to `''`. */
  function TagsText(t: Slot<TagsValue>): (text: string)
    ensures t.Val? && !t.value.Seq? ==> IsTrimmed(text)
    ensures t.Absent? ==> text == ""
  {
    match t
    case Absent => Join([], ItemProcessors.TagSeparator)
    case Null => "None"
    case Val(Seq(xs)) => Join(xs, ItemProcessors.TagSeparator)
    case Val(Text(s)) => Strip(s)
    case Val(Other(s)) => Strip(s)
  }

  /** The line `SaveToCsvPipeline.process_item` writes for an item. */
  function FormatLine(r: Record): (line: string)
    ensures |line| >= 8 && line[0] == '"' && line[|line| - 2..] == "\"\n"
  {
    "\"" + FieldText(r.quote) + "\",\"" + FieldText(r.author) + "\",\"" + TagsText(r.tags) + "\"\n"
  }

  /** The lines written for a sequence of items, in order. */
  function Lines(rs: seq<Record>): (lines: seq<string>)
    ensures |lines| == |rs|
    ensures forall i :: 0 <= i < |rs| ==> lines[i] == FormatLine(rs[i])
  {
    if |rs| == 0 then [] else Lines(rs[..|rs| - 1]) + [FormatLine(rs[|rs| - 1])]
  }

  /** Reads the three columns back out of a line free of embedded double quotes. */
  function ParseLine(line: string): Option<(string, string, string)> {
    if |line| >= 3 && line[0] == '"' && line[|line| - 2..] == "\"\n" then
      var parts := Split(line[1..|line| - 2], '"');
      if |parts| == 5 && parts[1] == "," && parts[3] == "," then Some((parts[0], parts[2], parts[4]))
      else None
    else None
  }

  /** The body of a line splits on double quotes into its three columns and the two
      separating commas. */
  lemma SplitColumns(q: string, a: string, t: string)
    requires '"' !in q && '"' !in a && '"' !in t
    ensures Split(q + "\",\"" + a + "\",\"" + t, '"') == [q, ",", a, ",", t]
  {
    var rest2 := a + ['"'] + ("," + ['"'] + t);
    var rest1 := "," + ['"'] + rest2;
    assert q + "\",\"" + a + "\",\"" + t == q + ['"'] + rest1;
    SplitAtFirst(q, '"', rest1);
    SplitAtFirst(",", '"', rest2);
    SplitAtFirst(a, '"', "," + ['"'] + t);
    SplitAtFirst(",", '"', t);
    SplitWithout(t, '"');
  }

  /** A line built from three columns free of double quotes reads back as those columns. */
  lemma ParseColumns(q: string, a: string, t: string)
    requires '"' !in q && '"' !in a && '"' !in t
    ensures ParseLine("\"" + q + "\",\"" + a + "\",\"" + t + "\"\n") == Some((q, a, t))
  {
    var body := q + "\",\"" + a + "\",\"" + t;
    var line := "\"" + body + "\"\n";
    assert line == "\"" + q + "\",\"" + a + "\",\"" + t + "\"\n";
    assert line[0] == '"';
    assert line[1..|line| - 2] == body;
    assert line[|line| - 2..] == "\"\n";
    SplitColumns(q, a, t);
    var parts := Split(line[1..|line| - 2], '"');
    assert parts == [q, ",", a, ",", t];
  }

  /** When no column holds a double quote, the line reads back as the quote, author and
      tags text, in that order. */
  lemma ParseFormatLine(r: Record)
    requires '"' !in FieldText(r.quote) && '"' !in FieldText(r.author) && '"' !in TagsText(r.tags)
    ensures ParseLine(FormatLine(r)) == Some((FieldText(r.quote), FieldText(r.author), TagsText(r.tags)))
  {
    ParseColumns(FieldText(r.quote), FieldText(r.author), TagsText(r.tags));
  }

  /** When no column holds a newline, the line holds exactly one, at its end. */
  lemma FormatLineIsOneLine(r: Record)
    requires '\n' !in FieldText(r.quote) && '\n' !in FieldText(r.author) && '\n' !in TagsText(r.tags)
    ensures var line := FormatLine(r); |line| > 0 && line[|line| - 1] == '\n' && '\n' !in line[..|line| - 1]
  {
    var line := FormatLine(r);
    assert line[..|line| - 1] ==
      "\"" + FieldText(r.quote) + "\",\"" + FieldText(r.author) + "\",\"" + TagsText(r.tags) + "\"";
  }

  /** Worked example: the line of a clean item, tags joined with a comma and a space. */
  lemma FormatLineExample()
    ensures FormatLine(Record(Val("hi"), Val("Bob"), Val(Seq(["x", "y"])))) == "\"hi\",\"Bob\",\"x, y\"\n"
  {
    assert Join(["x", "y"], ItemProcessors.TagSeparator) == "x, y" by {
      assert ["x", "y"][1..] == ["y"];
    }
  }

  /** No escaping: two different items can produce the same line. */
  lemma FormatLineNotInjective()
    ensures var r1 := Record(Val("a\",\"b"), Val("c"), Absent);
            var r2 := Record(Val("a"), Val("b\",\"c"), Absent);
            r1 != r2 && FormatLine(r1) == FormatLine(r2)
  {
  }

  /** The tags column of a cleaned item, fed back to the cleaner as a string, gives the
      same tags, provided none of them holds a comma. */
  lemma CsvTagsReadBack(r: Record)
    requires r.tags.Val?
    requires CommaFree(Normalize(r).tags.value.xs)
    ensures TagsText(Normalize(r).tags) == ItemProcessors.MakeTagsInString(CleanTags(r.tags.value))
    ensures CleanTags(Text(TagsText(Normalize(r).tags))) == CleanTags(r.tags.value)
  {
    JoinCleanRoundTrip(CleanTags(r.tags.value));
  }

  /** The output file of one crawl run. */
  class SaveToCsvPipeline {
    var state: SinkState
    /** What has been written to the file, one entry per write call. */
    var file: seq<string>
    /** The items written since the file was opened, in order. */
    ghost var saved: seq<Record>

    /** The header comes first and exactly once, then one line per saved item. */
    ghost predicate Valid()
      reads this
    {
      && (state == Unopened ==> file == [] && saved == [])
      && (state != Unopened ==> file == [Header] + Lines(saved))
    }

    /** The text of the file. */
    function Output(): string
      reads this
    {
      Concat(file)
    }

    constructor ()
      ensures Valid() && state == Unopened && file == [] && saved == []
    {
      state, file, saved := Unopened, [], [];
    }

    /** Opens the file for writing, truncating it, and writes the header. */
    method OpenSpider()
      modifies this
      ensures Valid() && state == Open
      ensures file == [Header] && saved == []
    {
      state, file, saved := Open, [Header], [];
    }

    /** Closes the file; closing it a second time does nothing. */
    method CloseSpider()
      requires Valid() && state != Unopened
      modifies this`state
      ensures Valid() && state == Closed
      ensures file == old(file) && saved == old(saved)
    {
      state := Closed;
    }

    /** Appends the item's line and returns the item unchanged. */
    method ProcessItem(item: Item) returns (result: Item)
      requires Valid() && state == Open
      modifies this`file, this`saved
      ensures Valid() && state == Open
      ensures file == old(file) + [FormatLine(item.Value())]
      ensures saved == old(saved) + [item.Value()]
      ensures result == item
    {
      var line := FormatLine(item.Value());
      file := file + [line];
      saved := saved + [item.Value()];
      result := item;
    }
  }

  /** The cleaned form of each item, in order. */
  function NormalizeAll(rs: seq<Record>): (ns: seq<Record>)
    ensures |ns| == |rs|
  {
    if |rs| == 0 then [] else NormalizeAll(rs[..|rs| - 1]) + [Normalize(rs[|rs| - 1])]
  }

  /** Item i of the cleaned run is item i cleaned. */
  lemma {:induction false} NormalizeAllAt(rs: seq<Record>, i: nat)
    requires i < |rs|
    ensures NormalizeAll(rs)[i] == Normalize(rs[i])
    decreases |rs|
  {
    if i < |rs| - 1 {
      NormalizeAllAt(rs[..|rs| - 1], i);
    }
  }

  lemma NormalizeAllPrefix(rs: seq<Record>, i: nat)
    requires i < |rs|
    ensures NormalizeAll(rs[..i + 1]) == NormalizeAll(rs[..i]) + [Normalize(rs[i])]
  {
    assert rs[..i + 1][..i] == rs[..i];
  }

  /** One crawl run: the file is opened, every scraped item goes through the cleaning
      pipeline and then the CSV pipeline, and the file is closed. The file is the header
      followed by the line of each cleaned item, in the order the items came. */
  method Crawl(records: seq<Record>) returns (output: string)
    ensures output == Header + Concat(Lines(NormalizeAll(records)))
  {
    var cleaner := new CleanDataPipeline();
    var sink := new SaveToCsvPipeline();
    sink.OpenSpider();
    var i := 0;
    while i < |records|
      invariant 0 <= i <= |records|
      invariant sink.Valid() && sink.state == Open
      invariant sink.saved == NormalizeAll(records[..i])
    {
      var item := new Item(records[i], map[]);
      var cleaned := cleaner.ProcessItem(item);
      var same := sink.ProcessItem(cleaned);
      NormalizeAllPrefix(records, i);
      i := i + 1;
    }
    sink.CloseSpider();
    assert records[..i] == records;
    output := sink.Output();
    ConcatCons(Header, Lines(sink.saved));
  }
}
