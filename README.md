# Quote scraper pipelines: a verified model

This project models the two item pipelines of a small Scrapy quote scraper, plus the
two text helpers defined in the item-loader spider's module. The spider itself calls
only `clean_quote`; nothing in the scraper calls `make_tags_in_string`.

- `CleanDataPipeline.process_item` normalises a scraped item in place. It trims the
  `quote` and `author` entries when they are present and non-empty. It turns the
  `tags` entry into an ordered list of trimmed, non-empty strings, whatever its shape:
  one string (split on commas when it has one), a list or tuple, or any other value.
- `SaveToCsvPipeline` owns the output file. `open_spider` writes the header
  `quote,author,tags`. `process_item` appends one unescaped line
  `"<quote>","<author>","<tags>"`. `close_spider` closes the file.
- `clean_quote` deletes the curly quotation marks “ and ” and strips the result.
  `make_tags_in_string` joins tags with `", "`.

Layout:

- `strings.dfy`, module `Strings`: Python's `str.strip()`, `str.split(c)`,
  `sep.join(xs)` and `str.replace(c, '')` on `string`, with their laws. Whitespace is
  exactly the set of characters for which Python's `str.isspace()` holds.
- `item_processors.dfy`, module `ItemProcessors`: `clean_quote` and `make_tags_in_string`.
- `pipelines.dfy`, module `Pipelines`: the item, both pipelines, the CSV line format,
  and `Crawl`, a client that runs items through both pipelines in order.
- `wrappers.dfy`, module `Wrappers`: `Option`.

An item entry is a `Slot`: `Absent` (no such key), `Null` (the key holds `None`), or
`Val(v)`. The two empty cases must be kept apart, because the CSV sink writes `''` for
a missing key and `None` for a `None` value. A `tags` value is a `TagsValue`:
`Text(s)`, `Seq(xs)` for a list or tuple, or `Other(s)` for any other object, where `s`
is the text `str()` already gave for it. `Item` is a class whose `quote`, `author` and
`tags` fields the cleaning pipeline rewrites in place. Its `others` field stands for
the item's remaining entries, which no pipeline touches. The output file is the field
`SaveToCsvPipeline.file`, the sequence of strings written to it, with a state
`Unopened`, `Open` or `Closed`.

At its edges the code behaves as follows, and the model follows it:

- Quote and author: a missing, `None` or empty entry is left exactly as it was. It is
  not replaced by an empty string.
- `open_spider` may be called in any state. It opens the file in `'w'` mode, which
  truncates it, and writes the header. From `Unopened` or `Closed` the file then holds
  the header alone. A second `open_spider` while the file is still open is modelled the
  same way (see "## Left out").
- `close_spider` fails only before `open_spider`, when `self.file` does not exist.
  Closing a closed file again does nothing in Python.
- `process_item` on the sink requires the state `Open`. Before opening, `self.file`
  is missing. After closing, the write fails on the closed file.

## Model

| member | source | states |
|---|---|---|
| Strings.IsWhitespace | myproject/pipelines.py:9 | the characters `str.strip()` removes: exactly those for which Python's `str.isspace()` holds, defined by its body |
| Strings.Strip | myproject/pipelines.py:9 | `str.strip()`: the result has no whitespace at either end and is never longer than the input |
| Strings.StripBlank | myproject/pipelines.py:23 | stripping gives `''` exactly when the string is all whitespace (both directions), which is what the `if p` filter tests |
| Strings.StripIsOuterTrim | myproject/pipelines.py:9 | strip removes only the whitespace before the first and after the last non-whitespace character; every other character stays, in place and in order |
| Strings.Split | myproject/pipelines.py:22 | `split(',')` yields at least one piece and no piece holds the separator |
| Strings.Join | myproject/spiders/quotes_items_processors.py:10 | `sep.join(xs)`, defined by its body; `Strings.JoinSplit`, `Strings.SplitJoin` and `Strings.JoinLength` characterize it |
| Strings.JoinSplit | myproject/pipelines.py:22 | joining the pieces of a split with the separator gives back the string, so split loses nothing |
| Strings.SplitJoin | myproject/pipelines.py:22 | splitting a join of separator-free pieces gives back exactly those pieces, empty ones included |
| Strings.RemoveChar | myproject/spiders/quotes_items_processors.py:7 | `replace(c, '')`: the result holds no `c`, and its characters are those of the input with every `c` taken out (as multisets) |
| Strings.RemoveCharAppend | myproject/spiders/quotes_items_processors.py:7 | deletion works piece by piece, so the remaining characters keep their order |
| Strings.JoinLength | myproject/spiders/quotes_items_processors.py:10 | a join of n ≥ 1 pieces is as long as the pieces plus n − 1 separators |
| ItemProcessors.DropCurlyQuotes | myproject/spiders/quotes_items_processors.py:7 | the two `replace` calls: the result holds neither “ nor ”; `ItemProcessors.DropCurlyQuotesDeletesOnly` says nothing else is removed and the order is kept |
| ItemProcessors.CleanQuote | myproject/spiders/quotes_items_processors.py:6-7 | the cleaned quote contains neither “ nor ” and has no whitespace at either end |
| ItemProcessors.CleanQuoteKeepsOrder | myproject/spiders/quotes_items_processors.py:7 | the cleaned quote is the text without curly quotation marks, with only the whitespace at its two ends taken off |
| ItemProcessors.DropCurlyQuotesDeletesOnly | myproject/spiders/quotes_items_processors.py:7 | deleting the curly quotation marks removes exactly those characters and keeps the others in order |
| ItemProcessors.CleanQuoteUnchanged | myproject/spiders/quotes_items_processors.py:7 | a text with no curly quotation mark and no outer whitespace is returned unchanged |
| ItemProcessors.CleanQuoteIdempotent | myproject/spiders/quotes_items_processors.py:7 | cleaning a cleaned quote changes nothing |
| ItemProcessors.MakeTagsInString | myproject/spiders/quotes_items_processors.py:9-10 | `", ".join(tags)`, defined by its body; `ItemProcessors.MakeTagsInStringShape` and `Pipelines.JoinCleanRoundTrip` characterize it |
| ItemProcessors.MakeTagsInStringShape | myproject/spiders/quotes_items_processors.py:9-10 | no tags give `''`, one tag gives that tag, and n ≥ 1 tags give a string of the tags' total length plus 2·(n − 1) |
| Pipelines.CleanParts | myproject/pipelines.py:22-25 | stripping parts and dropping the empty ones yields only non-empty, trimmed tags and never more tags than parts |
| Pipelines.CleanTags | myproject/pipelines.py:19-29 | whatever the shape of the `tags` value, every tag produced is non-empty and has no whitespace at either end |
| Pipelines.CleanPartsAppend | myproject/pipelines.py:25 | cleaning works element by element: the cleaned concatenation is the concatenation of the cleaned halves, so order is kept |
| Pipelines.CleanPartsSingle | myproject/pipelines.py:25 | one element gives its stripped text, or nothing when that is empty |
| Pipelines.CleanPartsAllBlank | myproject/pipelines.py:25 | elements that are all whitespace vanish; a list of only blanks becomes `[]` |
| Pipelines.CleanPartsKeepsAll | myproject/pipelines.py:25 | when no element is blank, nothing is dropped and element i becomes the stripped element i |
| Pipelines.CleanPartsOfClean | myproject/pipelines.py:25 | a list of non-empty trimmed tags comes back unchanged |
| Pipelines.CleanTextIsSplit | myproject/pipelines.py:20-23 | a string value always gives: split on `','`, strip each part, drop empty parts, keep order; the comma-free branch agrees with this rule |
| Pipelines.CleanTextWithoutComma | myproject/pipelines.py:22-23 | a comma-free string gives `[s.strip()]`, or `[]` when that is empty; never its characters |
| Pipelines.CleanSeqShape | myproject/pipelines.py:24-25 | a list value gives at most as many tags as elements; only-blank lists give `[]`; with no blanks, the tags are the stripped elements in order |
| Pipelines.CleanTagsIdempotent | myproject/pipelines.py:19-31 | cleaning the cleaned tag list again changes nothing, for every input shape |
| Pipelines.CleanText | myproject/pipelines.py:8-13 | a truthy quote or author becomes a trimmed text no longer than before; a missing, `None` or empty one is kept as it is |
| Pipelines.Normalize | myproject/pipelines.py:8-31 | the cleaned record is canonical (trimmed quote and author, clean tag list); falsy quote and author and absent or `None` tags are left as they were; present entries stay present and are never longer |
| Pipelines.NormalizeCanonical | myproject/pipelines.py:8-31 | an already canonical record is a fixed point of cleaning |
| Pipelines.NormalizeIdempotent | myproject/pipelines.py:8-31 | cleaning the pipeline's own output leaves quote, author and tags unchanged |
| Pipelines.CleanDataPipeline.ProcessItem | myproject/pipelines.py:4-33 | rewrites only the item's quote, author and tags, to their cleaned values; the item's other entries are unchanged; the same item is returned |
| Pipelines.JoinCleanRoundTrip | myproject/pipelines.py:20-23 | tags that are trimmed, non-empty and comma-free, joined with `", "` as the all-pages spider does (myproject/spiders/quotes_all_pages.py:21), clean back to exactly the same list |
| Pipelines.CsvTagsReadBack | myproject/pipelines.py:52-53 | the tags column written for a cleaned item is the `", "` join of its cleaned tags, and feeding that column back to the cleaner gives the same tags when none holds a comma |
| Pipelines.FieldText | myproject/pipelines.py:47-48 | a quote or author column as the f-string writes it: `''` for a missing key, `None` for a `None` value, the text otherwise; defined by its body, read back by `Pipelines.ParseFormatLine` |
| Pipelines.TagsText | myproject/pipelines.py:49-55 | the tags column: `''` for a missing key (the `[]` default joined); a non-list value is written as its stripped text, so with no whitespace at either end; a list is joined with `", "` (`Pipelines.CsvTagsReadBack`) |
| Pipelines.FormatLine | myproject/pipelines.py:57 | the written line starts with `"` and ends with `"` and a newline; `Pipelines.ParseFormatLine` shows the three columns between are the quote, author and tags text |
| Pipelines.ParseFormatLine | myproject/pipelines.py:57 | a line whose columns hold no `"` reads back as the quote, author and tags text in that order, with the defaults `''`/`''`/`[]` for missing keys |
| Pipelines.FormatLineIsOneLine | myproject/pipelines.py:57 | when no column holds a newline, each written line ends with a newline and holds no other |
| Pipelines.CleanExampleJoined | myproject/pipelines.py:20-23 | the string `"a, b, c"` cleans to `["a", "b", "c"]` |
| Pipelines.CleanExampleSolo | myproject/pipelines.py:22-23 | the comma-free string `"solo"` cleans to `["solo"]`, not to its characters |
| Pipelines.CleanExampleList | myproject/pipelines.py:24-25 | the list `["  x ", "", "  "]` cleans to `["x"]` |
| Pipelines.FormatLineExample | myproject/pipelines.py:47-57 | the item `hi`, `Bob`, `["x", "y"]` is written as `"hi","Bob","x, y"` and a newline |
| Pipelines.FormatLineNotInjective | myproject/pipelines.py:57 | with no escaping, two different items can be written as the same line |
| Pipelines.Lines | myproject/pipelines.py:58 | the lines written for a run of items are, index by index, the lines of those items |
| Pipelines.NormalizeAllAt | myproject/pipelines.py:3-33 | the cleaned run of items holds, at each index, that item as the cleaning pipeline leaves it |
| Pipelines.SaveToCsvPipeline.constructor | myproject/pipelines.py:36 | a new sink is unopened and has written nothing |
| Pipelines.SaveToCsvPipeline.OpenSpider | myproject/pipelines.py:37-39 | after opening, the file holds exactly the header `quote,author,tags` and a newline |
| Pipelines.SaveToCsvPipeline.CloseSpider | myproject/pipelines.py:41-42 | closing needs an opened file, leaves what was written unchanged and ends in `Closed` |
| Pipelines.SaveToCsvPipeline.ProcessItem | myproject/pipelines.py:44-60 | on an open file, appends exactly the item's line and nothing else; keeps the file the header followed by one line per item, in call order; returns the item unchanged |
| Pipelines.Crawl | myproject/pipelines.py:3-60 | items run through the cleaning pipeline and then the CSV pipeline between open and close give a file that is the header followed by one line per cleaned item, in arrival order |

## Left out

- The spiders: `start_requests`, `parse`, requests, CSS and XPath selectors, URL joining and following the next page. They are framework and network behaviour.
- `QuoteLoader`, `TakeFirst`, `MapCompose`, `Identity` and `ItemLoader`: library processors whose behaviour is not in the code.
- `ItemAdapter`: the item is modelled as a record of three optional entries plus a map standing for the rest.
- Real file I/O: `open`, the UTF-8 encoding, flushing and `close`. The file is the in-memory sequence of strings written to it. An I/O error on opening or writing is not modelled.
- `str()` on arbitrary objects: an `Other` tags value carries the already-coerced text. List elements, quote and author are taken to be strings.
- Tuples and lists are both `Seq`. The model does not tell them apart, and the code treats them alike.
- The `print` calls of the basic spider.
- CSV escaping: the code does none, and the model does not add any (see `Pipelines.FormatLineNotInjective`).
- Pipelines.Normalize: its contract bounds a cleaned quote or author by length and trimness only; that the cleaned text is the input with just its outer whitespace removed is stated once, about `Strip`, by `Strings.StripIsOuterTrim`.
- Pipelines.SaveToCsvPipeline.OpenSpider: a second `open_spider` while the file is still open abandons the old file object, whose buffered header and lines Python may still flush into the same file when that object is finalized. The model ignores that flush and holds only the new header.
