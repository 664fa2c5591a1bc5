/** The feed's list of articles (src/components/news/NewsFeed.tsx): the
    hard-coded initial list and the two handlers that rebuild it when a card
    is liked or bookmarked. Each handler maps over the list and replaces
    every item whose id matches. */
module NewsFeed {
  import opened Wrappers
  import opened Likes
  import NewsCard

  /** An item of the feed's list; unlike a card's props, every field is set. */
  datatype FeedItem = FeedItem(
    id: string, title: string, description: string, image: Option<string>,
    source: string, publishedAt: string, url: string, tags: seq<string>,
    likesCount: int, isLiked: bool, isBookmarked: bool)

  function LikesOf(item: FeedItem): LikeState {
    LikeState(item.isLiked, item.likesCount)
  }

  /** The object spread of `handleLike`: new like state, every other field kept. */
  function ToggleLiked(item: FeedItem): (r: FeedItem)
    ensures LikesOf(r) == Toggle(LikesOf(item))
    ensures r.(isLiked := item.isLiked, likesCount := item.likesCount) == item
  {
    var t := Toggle(LikesOf(item));
    item.(isLiked := t.liked, likesCount := t.count)
  }

  /** The object spread of `handleBookmark`: only the bookmark flag flips. */
  function ToggleBookmarked(item: FeedItem): (r: FeedItem)
    ensures r.isBookmarked == !item.isBookmarked
    ensures r.(isBookmarked := item.isBookmarked) == item
  {
    item.(isBookmarked := !item.isBookmarked)
  }

  /** `handleLike(id)`: same length, same order; the items with that id are
      toggled and every other item is left as it was. */
  function HandleLike(news: seq<FeedItem>, id: string): (r: seq<FeedItem>)
    ensures |r| == |news|
    ensures forall i :: 0 <= i < |news| ==>
              r[i] == if news[i].id == id then ToggleLiked(news[i]) else news[i]
    decreases |news|
  {
    if news == [] then []
    else [if news[0].id == id then ToggleLiked(news[0]) else news[0]] + HandleLike(news[1..], id)
  }

  /** `handleBookmark(id)`, the same map with the bookmark toggle. */
  function HandleBookmark(news: seq<FeedItem>, id: string): (r: seq<FeedItem>)
    ensures |r| == |news|
    ensures forall i :: 0 <= i < |news| ==>
              r[i] == if news[i].id == id then ToggleBookmarked(news[i]) else news[i]
    decreases |news|
  {
    if news == [] then []
    else [if news[0].id == id then ToggleBookmarked(news[0]) else news[0]] + HandleBookmark(news[1..], id)
  }

  /** Liking the same article twice gives back the list it started from. */
  lemma HandleLikeTwice(news: seq<FeedItem>, id: string)
    ensures HandleLike(HandleLike(news, id), id) == news
  {
    var once := HandleLike(news, id);
    forall i | 0 <= i < |news|
      ensures HandleLike(once, id)[i] == news[i]
    {
      if news[i].id == id {
        ToggleTwice(LikesOf(news[i]));
      }
    }
  }

  /** An id that no item carries changes nothing. */
  lemma HandleLikeUnknownId(news: seq<FeedItem>, id: string)
    requires forall i :: 0 <= i < |news| ==> news[i].id != id
    ensures HandleLike(news, id) == news
  {
  }

  /** A bookmark never touches the like flag or the count. */
  lemma HandleBookmarkKeepsLikes(news: seq<FeedItem>, id: string)
    ensures forall i :: 0 <= i < |news| ==> LikesOf(HandleBookmark(news, id)[i]) == LikesOf(news[i])
  {
  }

  predicate AllPlausible(news: seq<FeedItem>) {
    forall i :: 0 <= i < |news| ==> Plausible(LikesOf(news[i]))
  }

  /** Liking keeps every count non-negative and at least one where liked. */
  lemma HandleLikePlausible(news: seq<FeedItem>, id: string)
    requires AllPlausible(news)
    ensures AllPlausible(HandleLike(news, id))
  {
    var r := HandleLike(news, id);
    forall i | 0 <= i < |news|
      ensures Plausible(LikesOf(r[i]))
    {
      if news[i].id == id {
        TogglePlausible(LikesOf(news[i]));
      }
    }
  }

  predicate UniqueIds(news: seq<FeedItem>) {
    forall i, j :: 0 <= i < j < |news| ==> news[i].id != news[j].id
  }

  /** The props a card receives for a feed item. */
  function CardProps(item: FeedItem): (p: NewsCard.NewsItem)
    ensures NewsCard.InitialLikes(p) == LikesOf(item)
  {
    NewsCard.NewsItem(item.id, item.title, item.description, item.image, item.source,
                      item.publishedAt, item.url, item.tags,
                      Some(item.likesCount), Some(item.isLiked), Some(item.isBookmarked))
  }

  /** A card and the feed toggle in step: when the card for item `k` shows
      that item's like state and the user likes it, the card's new state is
      the new item's, provided the id is not shared with another item. */
  lemma CardAndFeedAgree(news: seq<FeedItem>, k: nat, card: LikeState)
    requires k < |news| && card == LikesOf(news[k])
    requires UniqueIds(news)
    ensures Toggle(card) == LikesOf(HandleLike(news, news[k].id)[k])
    ensures forall i :: 0 <= i < |news| && i != k ==> HandleLike(news, news[k].id)[i] == news[i]
  {
  }

  /** The list the feed starts with. */
  const MockNews: seq<FeedItem> := [
    FeedItem("1", "React 19 Released: New Features and Breaking Changes You Need to Know",
      "The React team has officially released React 19 with major improvements to server components, concurrent features, and developer experience. This comprehensive guide covers all the new features, breaking changes, and migration strategies.",
      Some("https://images.unsplash.com/photo-1633356122544-f134324a6cee?w=400&h=200&fit=crop"),
      "React Blog", "2024-01-15T10:30:00Z", "https://react.dev",
      ["React", "JavaScript", "Frontend"], 127, false, false),
    FeedItem("2", "The Future of Web Development: WebAssembly and Beyond",
      "Exploring how WebAssembly is revolutionizing web performance and enabling new possibilities for web applications. From gaming to data processing, WASM is changing what's possible in the browser.",
      Some("https://images.unsplash.com/photo-1517077304055-6e89abbf09b0?w=400&h=200&fit=crop"),
      "TechCrunch", "2024-01-15T08:15:00Z", "https://techcrunch.com",
      ["WebAssembly", "Performance", "Web"], 89, true, false),
    FeedItem("3", "TypeScript 5.3: New Features and Performance Improvements",
      "The latest TypeScript release brings significant performance improvements and new language features that make development more efficient and type-safe.",
      Some("https://images.unsplash.com/photo-1516116216624-53e697fedbea?w=400&h=200&fit=crop"),
      "TypeScript Blog", "2024-01-14T16:45:00Z", "https://typescriptlang.org",
      ["TypeScript", "JavaScript", "Development"], 203, false, true),
    FeedItem("4", "Building Scalable Microservices with Node.js and Docker",
      "A comprehensive guide to designing and implementing microservices architecture using Node.js and Docker. Learn best practices for service communication, data management, and deployment.",
      None,
      "Dev.to", "2024-01-14T14:20:00Z", "https://dev.to",
      ["Node.js", "Microservices", "Docker"], 156, false, false),
    FeedItem("5", "CSS Grid vs Flexbox: When to Use Each Layout Method",
      "Understanding the differences between CSS Grid and Flexbox, and knowing when to use each layout method for optimal responsive design results.",
      Some("https://images.unsplash.com/photo-1523726491678-bf852e717f6a?w=400&h=200&fit=crop"),
      "CSS-Tricks", "2024-01-14T11:30:00Z", "https://css-tricks.com",
      ["CSS", "Layout", "Design"], 74, false, false),
    FeedItem("6", "AI-Powered Code Review: The Next Evolution in Development",
      "How artificial intelligence is transforming code review processes, catching bugs earlier, and improving code quality across development teams.",
      Some("https://images.unsplash.com/photo-1555949963-aa79dcee981c?w=400&h=200&fit=crop"),
      "GitHub Blog", "2024-01-13T19:15:00Z", "https://github.blog",
      ["AI", "Code Review", "Productivity"], 312, true, true)
  ]

  /** The initial list has six items, distinct ids and plausible counts, so
      every property above that needs those applies to it. */
  lemma MockNewsWellFormed()
    ensures |MockNews| == 6
    ensures UniqueIds(MockNews)
    ensures AllPlausible(MockNews)
  {
    var ids := seq(6, i requires 0 <= i < 6 => MockNews[i].id);
    assert ids == ["1", "2", "3", "4", "5", "6"];
    forall i, j | 0 <= i < j < 6
      ensures MockNews[i].id != MockNews[j].id
    {
      assert ids[i][0] != ids[j][0];
    }
  }
}
