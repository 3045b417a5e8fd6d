# News collector digest pipeline, modelled in Dafny

The news collector is a batch job that runs once per invocation. It reads three
configured RSS feeds in order and takes the first three entries of each. For each
entry it extracts the article text and asks a generative model for a three-point
summary in Japanese. It collects one record `{source, title, link, summary}` per
entry, renders all records into one HTML digest and mails the digest through a
transactional mail service.

This project models the deterministic logic of `news_collector.py`. The services
around that logic are abstracted.

- `Settings` (`settings.dfy`) holds the feed list and the per-feed cap. The
  summary-length constant appears only inside the prompt preamble, as the
  text "300". It also models an environment variable as an
  `Option<string>`, together with Python's truthiness test on it.
- `Summarizer` (`summarizer.dfy`) models `summarize_text_with_gemini`:
  - Empty text returns a fixed message without calling the model.
  - Otherwise the prompt is a fixed preamble followed by the first 8000
    characters of the text.
  - The function makes exactly one model call. Any exception becomes a fixed
    error message.
  - The model is a parameter `gemini: string -> Reply`.
- `Digest` (`digest.dfy`) models `build_html_content`:
  - The method `BuildHtmlContent` grows the HTML string one record at a time,
    as the source does.
  - It is proved equal to the specification function `Document`, which is a
    header, then the record blocks in input order, then a footer.
  - Lemmas cover the header and footer, the empty digest, the position of the
    i-th block, the verbatim insertion of link, title and source, and the
    newline-to-`<br>` substitution with its inverse.
  - The date string is a parameter.
- `Mailer` (`mailer.dfy`) models `send_email`. A message goes out only when the
  API key and both addresses are truthy. Otherwise the send is skipped.
- `Pipeline` (`pipeline.dfy`) models `main` as the method `Run`, with the two
  nested loops of the source:
  - A missing model key aborts the run before any feed is read.
  - Otherwise the method collects exactly the records that the specification
    function `AllRecords` describes.
  - The digest is built and handed to the mailer only when at least one record
    exists.
  - Lemmas cover the record count, the feed-then-entry order, the bound on the
    number of records and the condition under which no record is produced.
  - Feed parsing, article extraction and the model are the fields of a
    `Backends` value.

`news_collector.py` makes one model call per article, with no retry, backoff or
rate-limit wait, and turns any exception into a fixed message.

## Model

| member | source | states |
|---|---|---|
| `Summarizer.Clip` | news_collector.py:63 | `text[:8000]`: the result is a prefix of the text, of length min(len(text), 8000), so at most 8000 characters of article text are used |
| `Summarizer.PromptShape` | news_collector.py:63 | the prompt starts with the fixed instruction preamble and is at most 8000 characters longer; what follows the preamble is a prefix of the article text, and is all of it when the text is 8000 characters or shorter |
| `Summarizer.PromptIgnoresTail` | news_collector.py:63 | two article texts that agree on their first 8000 characters give the same prompt, so nothing beyond character 8000 reaches the model |
| `Summarizer.Summarize` | news_collector.py:56-68 | no prompt is sent exactly when the text is empty, and then the result is the fixed "could not retrieve the article body" message; otherwise exactly one prompt, `Prompt(text)`, is sent, and the result is the model's text, or the fixed error message when the call raises |
| `Digest.BuildHtmlContent` | news_collector.py:70-83 | the string grown record by record equals `Document(today, summaries)`: the header, the blocks in input order, the footer |
| `Digest.DocumentFrame` | news_collector.py:73-82 | the digest starts with the header `<html><body><h1>` + date + `のニュースサマリー</h1>` and ends with `</body></html>`, whatever the records |
| `Digest.EmptyDocument` | news_collector.py:73-83 | with no records the digest is exactly the header followed by the footer |
| `Digest.FlattenConcat` | news_collector.py:75-80 | rendering a concatenation of records is rendering each part in turn: a block depends on its record only |
| `Digest.FlattenAt` | news_collector.py:75-80 | in a rendering of a list, the i-th item's rendering stands between those of the items before it and those of the items after it |
| `Digest.BlockAt` | news_collector.py:75-80 | the i-th record's block sits between the blocks of records 0..i-1 and those of records i+1..; with `Document` the i-th record lands in the i-th block |
| `Digest.BlockFields` | news_collector.py:76-80 | link, title and source stand verbatim (unescaped) at fixed offsets of their headings; the paragraph holds exactly the summary with newlines replaced and contains no newline; a block is link heading, source heading, paragraph and `<hr>` |
| `Digest.ReplacedHasNoNewline` | news_collector.py:78 | no `'\n'` survives the substitution |
| `Digest.ReplaceWithoutNewlines` | news_collector.py:78 | a summary without newlines is rendered unchanged |
| `Digest.ReplaceConcat` | news_collector.py:78 | the substitution acts on each character independently: it distributes over concatenation |
| `Digest.ReplacePrefix` | news_collector.py:78 | a prefix without `'<'` of the substituted text is already a prefix of the original, because every inserted `<br>` begins with `'<'` |
| `Digest.RestoreReplace` | news_collector.py:78 | replacing `<br>` back by `'\n'` recovers the original summary whenever it contained no `<br>` |
| `Digest.ReplaceNotInjective` | news_collector.py:78 | without that condition the round trip fails: `"\n"` and `"<br>"` render alike |
| `Mailer.SendEmail` | news_collector.py:85-101 | a message is attempted if and only if the API key, recipient and sender are all truthy; then it carries those non-empty values, the dated subject and the digest unchanged as its body |
| `Mailer.AnyMissingSkips` | news_collector.py:87-89 | any one setting unset or empty skips the send, for all seven incomplete combinations |
| `Pipeline.FirstEntries` | news_collector.py:116 | `entries[:3]`: a prefix of the feed's entries of length min(len(entries), 3) |
| `Pipeline.Run` | news_collector.py:103-139 | the run aborts if and only if the model key is missing, and then reads no feed; otherwise it reads every configured feed in order, collects exactly `AllRecords`, and builds and sends the digest (`Document` of those records, handed to `SendEmail`) if and only if the record list is non-empty |
| `Pipeline.CollectRecords` | news_collector.py:111-130 | the nested loops collect exactly `AllRecords(sources, backends)` and read the feed URLs in configured order |
| `Pipeline.Deliver` | news_collector.py:132-139 | the digest is built and handed to the mailer if and only if the record list is non-empty; it is then `Document` of the records, and the dispatch is `SendEmail` of that HTML |
| `Pipeline.AllRecordsConcat` | news_collector.py:111-130 | collecting over two runs of feeds is collecting over each and concatenating |
| `Pipeline.RecordCount` | news_collector.py:111-130 | exactly one record per processed entry: the count is the sum over feeds of min(len(entries), 3) |
| `Pipeline.RecordAt` | news_collector.py:112-129 | records are ordered feed by feed, then entry by entry: the record at offset (entries taken from earlier feeds) + j is the j-th entry's record of feed f, with the feed's name as source and the entry's title and link |
| `Pipeline.TakenCountBound` | news_collector.py:116 | at most three entries per feed are processed (the cap comes from `FirstEntries`), so at most 3 times the number of feeds in all |
| `Pipeline.ConfiguredRunBound` | news_collector.py:13-19 | with the three configured feeds a run collects at most nine records |
| `Pipeline.NoRecordsIff` | news_collector.py:132-139 | no record is produced if and only if every feed is empty, so the digest is built and sent exactly when some feed has an entry |

## Left out

- `get_article_text` (HTTP fetch, HTML parsing, container selection, tag removal): it is the function `Backends.extract`, which may return `""`. The parser library is not part of this model.
- The Gemini client (configuration, model construction, `generate_content`, `response.text`): it is the function `Backends.gemini`, whose reply is a text or an exception. Whether a reply text can be empty is not modelled. `Raised` also covers a failure in `genai.configure` or in building the model, before any request is made; the run still records the prompt it would have sent.
- `feedparser.parse`: it is the function `Backends.parse`, from feed URL to entries. A feed that fails to parse is an empty entry list.
- Building the SendGrid message and the send itself: network I/O. The model records the message that would be sent. The outcome of the send, success or a caught exception, does not change the run.
- `time.sleep` pacing, `print` logging, `os.getenv` and `datetime.now()`: environment values are parameters. The two dates are passed as already formatted strings, one for the digest title and one for the subject.
- The services are modelled as functions. The same URL or prompt therefore always yields the same result within a run, while the real services may answer differently each time.
- `Pipeline.Entry`: every parsed entry is assumed to carry a title and a link. In the source, an entry missing either field raises `AttributeError` in `main` (news_collector.py:117, 119). Nothing catches it, so the run ends without a digest, even when earlier feeds produced records. The model does not represent this case.
- `Pipeline.Run`: takes the feed list as a parameter. `main` runs it with `Settings.Feeds`, as `Pipeline.ConfiguredRunBound` does.
