/** Configuration of the news collector: the fixed feed list, the per-feed
    cap, and the environment lookups, which are passed in as values. */
module Settings {

  /** The result of an environment lookup: unset, or the variable's text. */
  datatype Option<T> = None | Some(value: T)

  /** Python truthiness of an environment lookup: both an unset variable
      and an empty string count as missing. */
  predicate Truthy(v: Option<string>)
  {
    v.Some? && v.value != ""
  }

  /** One configured feed: display name and feed URL. */
  datatype FeedSource = FeedSource(name: string, url: string)

  /** The configured feeds, in the dictionary's insertion order. */
  const Feeds: seq<FeedSource> := [
    FeedSource("Hacker News", "https://news.ycombinator.com/rss"),
    FeedSource("TechCrunch", "https://techcrunch.com/feed/"),
    FeedSource("The Verge", "https://www.theverge.com/rss/index.xml")
  ]

  /** How many entries of each feed are processed. */
  const MaxEntriesPerFeed: nat := 3
}
