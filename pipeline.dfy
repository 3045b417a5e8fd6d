/** The orchestrator: check the model's API key, walk the configured feeds
    in order, take the first entries of each, extract and summarize every
    entry into one record, and build and send the digest when any record
    was produced. Feed parsing, article extraction and the model are
    supplied as functions. */
module Pipeline {
  import opened Settings
  import Summarizer
  import opened Digest
  import Mailer

  /** One feed entry, as the feed parser yields it. */
  datatype Entry = Entry(title: string, link: string)

  /** The outside services: the feed parser (URL to entries), the article
      extractor (URL to text, "" on any failure) and the generative model
      (prompt to reply). */
  datatype Backends = Backends(
    parse: string -> seq<Entry>,
    extract: string -> string,
    gemini: string -> Summarizer.Reply)

  /** What the run does once the records are collected. */
  datatype Delivery = NothingToSummarize | Delivered(html: string, dispatch: Mailer.Dispatch)

  /** How a run ends. */
  datatype RunOutcome = MissingApiKey | Finished(records: seq<Record>, delivery: Delivery)

  /** Python's entries[:MAX_ENTRIES_PER_FEED]. */
  function FirstEntries(entries: seq<Entry>): (r: seq<Entry>)
    ensures |r| == if |entries| <= MaxEntriesPerFeed then |entries| else MaxEntriesPerFeed
    ensures r <= entries
  {
    if |entries| <= MaxEntriesPerFeed then entries else entries[..MaxEntriesPerFeed]
  }

  /** The record made for one entry of the feed called `name`. */
  function EntryRecord(name: string, e: Entry, b: Backends): Record
  {
    Record(name, e.title, e.link, Summarizer.Summarize(b.extract(e.link), b.gemini).text)
  }

  /** The entries of one feed that are processed. */
  function Taken(source: FeedSource, b: Backends): seq<Entry>
  {
    FirstEntries(b.parse(source.url))
  }

  /** The records of one feed, one per processed entry, in feed order. */
  function FeedRecords(source: FeedSource, b: Backends): seq<Record>
  {
    var es := Taken(source, b);
    seq(|es|, k requires 0 <= k < |es| => EntryRecord(source.name, es[k], b))
  }

  /** The records of all feeds, feed after feed. */
  function AllRecords(sources: seq<FeedSource>, b: Backends): seq<Record>
  {
    if sources == [] then []
    else AllRecords(sources[..|sources| - 1], b) + FeedRecords(sources[|sources| - 1], b)
  }

  /** The number of entries processed across the feeds: the sum over feeds
      of min(len(entries), MAX_ENTRIES_PER_FEED). */
  function TakenCount(sources: seq<FeedSource>, b: Backends): nat
  {
    if sources == [] then 0
    else TakenCount(sources[..|sources| - 1], b) + |Taken(sources[|sources| - 1], b)|
  }

  /** The whole run of main(). */
  method Run(geminiKey: Option<string>, mail: Mailer.MailSettings, today: string, sendDate: string,
             sources: seq<FeedSource>, b: Backends)
    returns (outcome: RunOutcome, feedsRead: seq<string>)
    ensures outcome == MissingApiKey <==> !Truthy(geminiKey)
    ensures !Truthy(geminiKey) ==> feedsRead == []
    ensures Truthy(geminiKey) ==>
              |feedsRead| == |sources| && forall k :: 0 <= k < |sources| ==> feedsRead[k] == sources[k].url
    ensures outcome.Finished? ==> outcome.records == AllRecords(sources, b)
    ensures outcome.Finished? ==> (outcome.delivery.Delivered? <==> outcome.records != [])
    ensures outcome.Finished? && outcome.delivery.Delivered? ==>
              && outcome.delivery.html == Document(today, outcome.records)
              && outcome.delivery.dispatch == Mailer.SendEmail(mail, sendDate, outcome.delivery.html)
  {
    if !Truthy(geminiKey) {
      return MissingApiKey, [];
    }
    var allSummaries;
    allSummaries, feedsRead := CollectRecords(sources, b);
    var delivery := Deliver(allSummaries, mail, today, sendDate);
    outcome := Finished(allSummaries, delivery);
  }

  /** The loop of main() over the feeds and over each feed's first entries. */
  method CollectRecords(sources: seq<FeedSource>, b: Backends)
    returns (allSummaries: seq<Record>, feedsRead: seq<string>)
    ensures allSummaries == AllRecords(sources, b)
    ensures |feedsRead| == |sources| && forall k :: 0 <= k < |sources| ==> feedsRead[k] == sources[k].url
  {
    allSummaries, feedsRead := [], [];
    var i := 0;
    while i < |sources|
      invariant 0 <= i <= |sources|
      invariant allSummaries == AllRecords(sources[..i], b)
      invariant |feedsRead| == i && forall k :: 0 <= k < i ==> feedsRead[k] == sources[k].url
    {
      var source := sources[i];
      feedsRead := feedsRead + [source.url];
      var entries := FirstEntries(b.parse(source.url));
      ghost var before := allSummaries;
      var j := 0;
      while j < |entries|
        invariant 0 <= j <= |entries|
        invariant allSummaries == before + FeedRecords(source, b)[..j]
      {
        var entry := entries[j];
        var articleText := b.extract(entry.link);
        var summary := Summarizer.Summarize(articleText, b.gemini).text;
        allSummaries := allSummaries + [Record(source.name, entry.title, entry.link, summary)];
        assert FeedRecords(source, b)[..j + 1] == FeedRecords(source, b)[..j] + [FeedRecords(source, b)[j]];
        j := j + 1;
      }
      assert FeedRecords(source, b)[..j] == FeedRecords(source, b);
      assert sources[..i + 1][..i] == sources[..i];
      i := i + 1;
    }
    assert sources[..i] == sources;
  }

  /** The tail of main(): build and send the digest only when there is
      something to summarize. */
  method Deliver(allSummaries: seq<Record>, mail: Mailer.MailSettings, today: string, sendDate: string)
    returns (delivery: Delivery)
    ensures delivery.Delivered? <==> allSummaries != []
    ensures delivery.Delivered? ==>
              && delivery.html == Document(today, allSummaries)
              && delivery.dispatch == Mailer.SendEmail(mail, sendDate, delivery.html)
  {
    if allSummaries != [] {
      var html := BuildHtmlContent(today, allSummaries);
      var dispatch := Mailer.SendEmail(mail, sendDate, html);
      delivery := Delivered(html, dispatch);
    } else {
      delivery := NothingToSummarize;
    }
  }

  // ---------------------------------------------------------------------
  // Properties of the collected records

  /** Collecting over two runs of feeds is collecting over each in turn. */
  lemma {:induction false} AllRecordsConcat(a: seq<FeedSource>, c: seq<FeedSource>, b: Backends)
    ensures AllRecords(a + c, b) == AllRecords(a, b) + AllRecords(c, b)
    decreases |c|
  {
    if c == [] {
      assert a + c == a;
    } else {
      var n := |c| - 1;
      assert (a + c)[..|a + c| - 1] == a + c[..n];
      assert (a + c)[|a + c| - 1] == c[n];
      AllRecordsConcat(a, c[..n], b);
    }
  }

  /** There is exactly one record per processed entry. */
  lemma {:induction false} RecordCount(sources: seq<FeedSource>, b: Backends)
    ensures |AllRecords(sources, b)| == TakenCount(sources, b)
  {
    if sources != [] {
      RecordCount(sources[..|sources| - 1], b);
    }
  }

  /** Records are ordered feed by feed, then entry by entry: the j-th
      processed entry of feed f yields the record right after those of the
      feeds before f and of the entries before j, and that record carries
      the feed's name as its source and the entry's title and link. */
  lemma RecordAt(sources: seq<FeedSource>, b: Backends, f: nat, j: nat)
    requires f < |sources|
    requires j < |Taken(sources[f], b)|
    ensures TakenCount(sources[..f], b) + j < |AllRecords(sources, b)|
    ensures var r := AllRecords(sources, b)[TakenCount(sources[..f], b) + j];
            var e := Taken(sources[f], b)[j];
            && r == EntryRecord(sources[f].name, e, b)
            && r.source == sources[f].name && r.title == e.title && r.link == e.link
            && e == b.parse(sources[f].url)[j]
  {
    assert sources == sources[..f] + [sources[f]] + sources[f + 1..];
    AllRecordsConcat(sources[..f] + [sources[f]], sources[f + 1..], b);
    AllRecordsConcat(sources[..f], [sources[f]], b);
    assert [sources[f]][..0] == [];
    RecordCount(sources[..f], b);
  }

  /** At most MAX_ENTRIES_PER_FEED records come from each feed. */
  lemma {:induction false} TakenCountBound(sources: seq<FeedSource>, b: Backends)
    ensures TakenCount(sources, b) <= MaxEntriesPerFeed * |sources|
  {
    if sources != [] {
      TakenCountBound(sources[..|sources| - 1], b);
    }
  }

  /** With the three configured feeds a run collects at most nine records. */
  lemma ConfiguredRunBound(b: Backends)
    ensures |AllRecords(Feeds, b)| <= 9
  {
    RecordCount(Feeds, b);
    TakenCountBound(Feeds, b);
  }

  /** No record is produced exactly when every feed is empty, so the digest
      is built and sent exactly when some feed has an entry. */
  lemma {:induction false} NoRecordsIff(sources: seq<FeedSource>, b: Backends)
    ensures AllRecords(sources, b) == [] <==>
            forall f :: 0 <= f < |sources| ==> b.parse(sources[f].url) == []
  {
    if sources != [] {
      var n := |sources| - 1;
      NoRecordsIff(sources[..n], b);
      assert forall f :: 0 <= f < n ==> sources[..n][f] == sources[f];
    }
  }
}
