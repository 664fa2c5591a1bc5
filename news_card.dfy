/** One article card (src/components/news/NewsCard.tsx): its local like and
    bookmark state, the relative publication time, the tag badges and the
    like counter. */
module NewsCard {
  import opened Wrappers
  import opened Text
  import opened Likes

  /** The card's `news` prop; the three like/bookmark fields are optional. */
  datatype NewsItem = NewsItem(
    id: string, title: string, description: string, image: Option<string>,
    source: string, publishedAt: string, url: string, tags: seq<string>,
    likesCount: Option<int>, isLiked: Option<bool>, isBookmarked: Option<bool>)

  /** `news.isLiked || false` and `news.likesCount || 0`. */
  function InitialLikes(news: NewsItem): (s: LikeState)
    ensures s.liked <==> news.isLiked == Some(true)
    ensures news.likesCount.None? ==> s.count == 0
    ensures news.likesCount.Some? ==> s.count == news.likesCount.value
  {
    LikeState(news.isLiked == Some(true), news.likesCount.GetOr(0))
  }

  /** The card's own state. It is seeded from the props once and from then
      on changes only through the card's handlers. */
  class LocalState {
    const news: NewsItem
    /** Whether the parent passed `onLike` and `onBookmark`. */
    const hasOnLike: bool
    const hasOnBookmark: bool
    var liked: bool
    var bookmarked: bool
    var likesCount: int

    constructor (news: NewsItem, hasOnLike: bool, hasOnBookmark: bool)
      ensures this.news == news && this.hasOnLike == hasOnLike && this.hasOnBookmark == hasOnBookmark
      ensures Likes() == InitialLikes(news)
      ensures bookmarked <==> news.isBookmarked == Some(true)
    {
      this.news := news;
      this.hasOnLike := hasOnLike;
      this.hasOnBookmark := hasOnBookmark;
      liked := news.isLiked == Some(true);
      bookmarked := news.isBookmarked == Some(true);
      likesCount := news.likesCount.GetOr(0);
    }

    function Likes(): LikeState
      reads this
    {
      LikeState(liked, likesCount)
    }

    /** `handleLike`: toggles the local like state and reports the article
        id to `onLike`, when there is one. */
    method HandleLike() returns (notified: Option<string>)
      modifies this
      ensures Likes() == Toggle(old(Likes()))
      ensures bookmarked == old(bookmarked)
      ensures notified == if hasOnLike then Some(news.id) else None
    {
      var wasLiked := liked;
      liked := !liked;
      likesCount := if wasLiked then likesCount - 1 else likesCount + 1;
      notified := if hasOnLike then Some(news.id) else None;
    }

    /** `handleBookmark`: flips only the bookmark flag and reports the id. */
    method HandleBookmark() returns (notified: Option<string>)
      modifies this
      ensures bookmarked == !old(bookmarked)
      ensures Likes() == old(Likes())
      ensures notified == if hasOnBookmark then Some(news.id) else None
    {
      bookmarked := !bookmarked;
      notified := if hasOnBookmark then Some(news.id) else None;
    }
  }

  const MsPerHour: int := 1000 * 60 * 60
  const MsPerDay: int := 24 * MsPerHour

  /** `formatTimeAgo`, with the clock and the parsed publication date given
      as milliseconds since the epoch. */
  function FormatTimeAgo(nowMs: int, publishedMs: int): (r: string)
    ensures nowMs - publishedMs < MsPerHour <==> r == "Just now"
    ensures MsPerHour <= nowMs - publishedMs < MsPerDay ==>
              exists h: nat :: 1 <= h < 24 && h * MsPerHour <= nowMs - publishedMs < (h + 1) * MsPerHour
                               && r == NatToString(h) + "h ago"
    ensures MsPerDay <= nowMs - publishedMs ==>
              exists n: nat :: 1 <= n && n * MsPerDay <= nowMs - publishedMs < (n + 1) * MsPerDay
                               && r == NatToString(n) + "d ago"
  {
    var diff := nowMs - publishedMs;
    var hours := diff / MsPerHour;
    if hours < 1 then
      "Just now"
    else if hours < 24 then
      var r := NatToString(hours) + "h ago";
      assert IsDigit(r[0]) && !IsDigit("Just now"[0]);
      r
    else
      var days := hours / 24;
      var r := NatToString(days) + "d ago";
      assert IsDigit(r[0]) && !IsDigit("Just now"[0]);
      assert days * MsPerDay <= hours * MsPerHour <= diff;
      assert diff < (hours + 1) * MsPerHour <= (days + 1) * MsPerDay;
      r
  }

  /** `news.tags.slice(0, 3)`: the badges shown, in order. */
  function VisibleTags(tags: seq<string>): (r: seq<string>)
    ensures |r| == if |tags| < 3 then |tags| else 3
    ensures r == tags[..|r|]
  {
    if |tags| <= 3 then tags else tags[..3]
  }

  /** The number beside the heart: shown only for a positive count. */
  function LikeCountLabel(count: int): (r: Option<string>)
    ensures r.Some? <==> count > 0
    ensures r.Some? ==> ParseInt(r.value) == Some(count)
  {
    ParseIntToString(count);
    if count > 0 then Some(IntToString(count)) else None
  }
}
