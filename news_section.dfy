/** The client's `NewsSection` component without its rendering: the fetched
    article list, its loading flag and error message, and the "View More"
    window over it. Each article's age label is `TimeAgo.FormatTimeAgo`.

    As in `StockListsComponent`, a fetch is split at its `await`: `LoadEffect`
    and `Retry` start it, `CompleteLoad` finishes it with the fetch's outcome. */
module NewsSectionComponent {
  import opened Wrappers
  import opened Paging

  /** An article as the API sends it; `date` is a timestamp string. */
  datatype Article = Article(
    title: string,
    date: string,
    content: string,
    tickers: string,
    image: string,
    link: string,
    author: string,
    site: string)

  const NewsFailureMessage: string := "Failed to load news"

  class NewsSection {
    var visible: int
    /** The window presses so far, which determine `visible`. */
    ghost var windowEvents: seq<WindowEvent>
    var news: seq<Article>
    var loading: bool
    var error: Option<string>

    /** The window is a positive multiple of the page size, and the error is
        either absent or the failure message. */
    ghost predicate Valid()
      reads this
    {
      && visible == VisibleAfter(windowEvents)
      && visible > 0 && visible % PageSize == 0
      && (error == None || error == Some(NewsFailureMessage))
    }

    /** The state before the mount effect: one page, no articles, loading. */
    constructor ()
      ensures Valid()
      ensures visible == PageSize && news == [] && loading && error == None
    {
      visible := PageSize;
      windowEvents := [];
      news := [];
      loading := true;
      error := None;
    }

    /** `error && !loading`: the error view with its "Retry" button is shown. */
    function ErrorShown(): (shown: bool)
      reads this
      requires Valid()
      ensures shown <==> error.Some? && !loading
    {
      error.Some? && error.value != "" && !loading
    }

    /** Articles and "View More" are hidden while loading or when an error is set. */
    function Blocked(): (blocked: bool)
      reads this
      requires Valid()
      ensures blocked <==> loading || error.Some?
    {
      loading || (error.Some? && error.value != "")
    }

    /** `visibleNews`: the first `visible` articles. */
    function VisibleNews(): (items: seq<Article>)
      reads this
      requires Valid()
      ensures |items| == Min(visible, |news|) && items == news[..|items|]
    {
      Window(news, visible, false)
    }

    /** The articles rendered: the visible ones unless loading or errored. */
    function RenderedNews(): (items: seq<Article>)
      reads this
      requires Valid()
      ensures Blocked() ==> items == []
      ensures !Blocked() ==> items == VisibleNews()
    {
      Window(news, visible, Blocked())
    }

    /** Whether "View More" is rendered. */
    function ShowViewMore(): (shown: bool)
      reads this
      requires Valid()
      ensures shown <==> !loading && error.None? && visible < |news|
    {
      ViewMoreShown(|news|, visible, Blocked())
    }

    /** The "(n remaining)" count of the "View More" button. */
    function RemainingCount(): (n: int)
      reads this
      requires Valid() && ShowViewMore()
      ensures n > 0 && |VisibleNews()| + n == |news|
    {
      Remaining(|news|, visible, Blocked())
    }

    /** The `isLast` flag of each visible article. */
    function ArticleLastFlags(): (flags: seq<bool>)
      reads this
      requires Valid()
      ensures |flags| == |VisibleNews()|
      ensures forall i, j :: 0 <= i < j < |flags| ==> !(flags[i] && flags[j])
      ensures visible < |news| ==> forall i :: 0 <= i < |flags| ==> !flags[i]
      ensures visible >= |news| && |flags| > 0 ==> flags[|flags| - 1]
    {
      LastFlags(|VisibleNews()|, visible, |news|)
    }

    /** The mount effect, up to its `await`: raise the loading flag and clear
        the error. */
    method LoadEffect()
      requires Valid()
      modifies this`loading, this`error
      ensures Valid()
      ensures loading && error == None
    {
      loading := true;
      error := None;
    }

    /** `retryLoad` from the error view's "Retry" button, up to its `await`. */
    method Retry()
      requires Valid() && ErrorShown()
      modifies this`loading, this`error
      ensures Valid()
      ensures loading && error == None
    {
      loading := true;
      error := None;
    }

    /** The rest of a news fetch: store the articles or set the failure
        message, then clear the loading flag. */
    method CompleteLoad(fetched: Option<seq<Article>>)
      requires Valid()
      modifies this`news, this`loading, this`error
      ensures Valid()
      ensures !loading
      ensures fetched.Some? ==> news == fetched.value && error == old(error)
      ensures fetched.None? ==> news == old(news) && error == Some(NewsFailureMessage)
    {
      if fetched.Some? {
        news := fetched.value;
      } else {
        error := Some(NewsFailureMessage);
      }
      loading := false;
    }

    /** The "View More" button's press: widen the window by one page. */
    method ViewMore()
      requires Valid() && ShowViewMore()
      modifies this`visible, this`windowEvents
      ensures Valid()
      ensures windowEvents == old(windowEvents) + [ViewMorePress]
      ensures visible == old(visible) + PageSize
      ensures old(VisibleNews()) <= VisibleNews()
    {
      ViewMoreExtendsWindow(news, visible);
      visible := visible + PageSize;
      windowEvents := windowEvents + [ViewMorePress];
      assert windowEvents[..|windowEvents| - 1] == old(windowEvents);
      VisibleIsWholePages(windowEvents);
    }
  }

  /** Twelve articles loaded on mount: five are shown with "View More (7
      remaining)"; two presses show all twelve, the last one flagged and the
      button gone. */
  method PageThroughTwelve(articles: seq<Article>)
    returns (firstRemaining: int, finalShown: int, finalFlags: seq<bool>, finalViewMore: bool)
    requires |articles| == 12
    ensures firstRemaining == 7
    ensures finalShown == 12 && !finalViewMore
    ensures |finalFlags| == 12 && finalFlags[11] && !finalFlags[0]
  {
    var section := new NewsSection();
    section.LoadEffect();
    section.CompleteLoad(Some(articles));
    firstRemaining := section.RemainingCount();
    section.ViewMore();
    section.ViewMore();
    finalShown := |section.RenderedNews()|;
    finalFlags := section.ArticleLastFlags();
    finalViewMore := section.ShowViewMore();
  }
}
