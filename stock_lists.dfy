/** The client's `StockLists` component without its rendering: three tabs
    (gainers, losers, most active), each with a lazily loaded list, a loading
    flag and an error message, and one "View More" window shared by the tabs.

    React's state setters become field updates. The asynchronous fetch is
    split at its `await`: `LoadEffect` and `Retry` do what happens before it
    and say which tab they started fetching; `CompleteFetch` does what happens
    after it, given that tab and the fetch's outcome. */
module StockListsComponent {
  import opened Wrappers
  import opened Paging

  /** The three tabs, in display order. */
  datatype Tab = Gainers | Losers | Active

  /** The tab's key in `tabs`, used in messages. */
  function TabKey(t: Tab): string {
    match t
    case Gainers => "gainers"
    case Losers => "losers"
    case Active => "active"
  }

  function ToUpper(c: char): char {
    if 'a' <= c <= 'z' then (c as int - 32) as char else c
  }

  /** `getTabLabel`: the key with its first letter capitalised. */
  function TabLabel(t: Tab): (text: string)
    ensures |text| == |TabKey(t)| > 0
    ensures text[0] == ToUpper(TabKey(t)[0]) && text[1..] == TabKey(t)[1..]
  {
    match t
    case Gainers => "Gainers"
    case Losers => "Losers"
    case Active => "Active"
  }

  /** The message a failed load of tab `t` leaves; never empty. */
  function FailureMessage(t: Tab): (m: string)
    ensures m != ""
  {
    "Failed to load " + TabKey(t) + " stocks"
  }

  /** The failure message names its tab: different tabs leave different
      messages. */
  lemma FailureMessagesDistinct(t: Tab, u: Tab)
    requires t != u
    ensures FailureMessage(t) != FailureMessage(u)
  {
    assert FailureMessage(t)[15] == TabKey(t)[0];
    assert FailureMessage(u)[15] == TabKey(u)[0];
  }

  /** One value per tab: the three parallel state variables of each kind. */
  datatype PerTab<T> = PerTab(gainers: T, losers: T, active: T) {

    function Get(t: Tab): T {
      match t
      case Gainers => gainers
      case Losers => losers
      case Active => active
    }

    /** The same values with tab `t`'s replaced by `v`. */
    function Set(t: Tab, v: T): (r: PerTab<T>)
      ensures r.Get(t) == v
      ensures forall u :: u != t ==> r.Get(u) == Get(u)
    {
      match t
      case Gainers => this.(gainers := v)
      case Losers => this.(losers := v)
      case Active => this.(active := v)
    }
  }

  /** An entry of a screener list as the API sends it; prices are numbers
      the list only passes through. */
  datatype Stock = Stock(
    name: string,
    exchange: string,
    symbol: string,
    currentValue: real,
    changePercent1D: real,
    changeAbs: real,
    volume: string)

  /** What a rendered row shows of a stock. */
  datatype Row = Row(symbol: string, exchange: string, currentValue: real, changePercent1D: real)

  function ToRow(s: Stock): Row {
    Row(s.symbol, s.exchange, s.currentValue, s.changePercent1D)
  }

  /** What `getCurrentStates` returns for the selected tab. */
  datatype TabStatus = TabStatus(isLoading: bool, hasError: bool, error: Option<string>)

  class StockLists {
    var activeTab: Tab
    var visible: int
    /** The window presses so far, which determine `visible`. */
    ghost var windowEvents: seq<WindowEvent>
    var data: PerTab<seq<Stock>>
    var loading: PerTab<bool>
    var error: PerTab<Option<string>>

    /** The window is a positive multiple of the page size, and a tab's error
        is either absent or that tab's failure message. */
    ghost predicate Valid()
      reads this
    {
      && visible == VisibleAfter(windowEvents)
      && visible > 0 && visible % PageSize == 0
      && forall t: Tab :: error.Get(t) == None || error.Get(t) == Some(FailureMessage(t))
    }

    /** The initial state: the gainers tab, one page, nothing loaded. */
    constructor ()
      ensures Valid()
      ensures activeTab == Gainers && visible == PageSize
      ensures data == PerTab([], [], [])
      ensures loading == PerTab(false, false, false)
      ensures error == PerTab(None, None, None)
    {
      activeTab := Gainers;
      visible := PageSize;
      windowEvents := [];
      data := PerTab([], [], []);
      loading := PerTab(false, false, false);
      error := PerTab(None, None, None);
    }

    /** `getData`: the selected tab's list as rows, in order. */
    function GetData(): (rows: seq<Row>)
      reads this
      ensures |rows| == |data.Get(activeTab)|
      ensures forall i :: 0 <= i < |rows| ==> rows[i] == ToRow(data.Get(activeTab)[i])
    {
      var list := data.Get(activeTab);
      seq(|list|, i requires 0 <= i < |list| => ToRow(list[i]))
    }

    /** `getCurrentStates`: the selected tab's flags; it shows an error
        exactly when that tab has one and is not loading. */
    function CurrentStates(): (s: TabStatus)
      reads this
      requires Valid()
      ensures s.isLoading == loading.Get(activeTab)
      ensures s.error == error.Get(activeTab)
      ensures s.hasError <==> error.Get(activeTab).Some? && !loading.Get(activeTab)
    {
      var t := activeTab;
      var failed := error.Get(t).Some? && error.Get(t).value != "";
      TabStatus(loading.Get(t), failed && !loading.Get(t), error.Get(t))
    }

    /** Rows are hidden while loading or showing an error. */
    function Blocked(): bool
      reads this
      requires Valid()
    {
      CurrentStates().isLoading || CurrentStates().hasError
    }

    /** `visibleItems`: the first `visible` rows of the selected tab. */
    function VisibleItems(): (rows: seq<Row>)
      reads this
      requires Valid()
      ensures |rows| == Min(visible, |data.Get(activeTab)|)
      ensures forall i :: 0 <= i < |rows| ==> rows[i] == ToRow(data.Get(activeTab)[i])
    {
      Window(GetData(), visible, false)
    }

    /** The rows rendered: the visible items unless loading or errored. */
    function RenderedRows(): (rows: seq<Row>)
      reads this
      requires Valid()
      ensures Blocked() ==> rows == []
      ensures !Blocked() ==> rows == VisibleItems()
    {
      Window(GetData(), visible, Blocked())
    }

    /** Whether "View More" is rendered: more rows than the window holds,
        and neither loading nor errored. */
    function ShowViewMore(): (shown: bool)
      reads this
      requires Valid()
      ensures shown <==> !Blocked() && visible < |data.Get(activeTab)|
    {
      ViewMoreShown(|GetData()|, visible, Blocked())
    }

    /** The "(n remaining)" count of the "View More" button. */
    function RemainingCount(): (n: int)
      reads this
      requires Valid() && ShowViewMore()
      ensures n > 0 && |VisibleItems()| + n == |data.Get(activeTab)|
    {
      Remaining(|GetData()|, visible, Blocked())
    }

    /** The `isLast` flag of each visible row. */
    function RowLastFlags(): (flags: seq<bool>)
      reads this
      requires Valid()
      ensures |flags| == |VisibleItems()|
      ensures forall i, j :: 0 <= i < j < |flags| ==> !(flags[i] && flags[j])
      ensures visible < |data.Get(activeTab)| ==> forall i :: 0 <= i < |flags| ==> !flags[i]
      ensures visible >= |data.Get(activeTab)| && |flags| > 0 ==> flags[|flags| - 1]
    {
      LastFlags(|VisibleItems()|, visible, |GetData()|)
    }

    /** `handleTabPress`: select the tab and reset the window to one page. */
    method SelectTab(tab: Tab)
      requires Valid()
      modifies this`activeTab, this`visible, this`windowEvents
      ensures Valid()
      ensures windowEvents == old(windowEvents) + [TabPress]
      ensures activeTab == tab && visible == PageSize
    {
      activeTab := tab;
      visible := PageSize;
      windowEvents := windowEvents + [TabPress];
      assert windowEvents[..|windowEvents| - 1] == old(windowEvents);
    }

    /** The "View More" button's press: widen the window by one page. */
    method ViewMore()
      requires Valid() && ShowViewMore()
      modifies this`visible, this`windowEvents
      ensures Valid()
      ensures windowEvents == old(windowEvents) + [ViewMorePress]
      ensures visible == old(visible) + PageSize
      ensures old(VisibleItems()) <= VisibleItems()
    {
      ViewMoreExtendsWindow(GetData(), visible);
      visible := visible + PageSize;
      windowEvents := windowEvents + [ViewMorePress];
      assert windowEvents[..|windowEvents| - 1] == old(windowEvents);
      VisibleIsWholePages(windowEvents);
    }

    /** The load effect, up to its `await`: it fetches the selected tab only,
        and only when that tab's list is empty, first raising its loading flag
        and clearing its error. Otherwise its `finally` clears that tab's
        loading flag at once. Returns the tab whose fetch it started. */
    method LoadEffect() returns (fetching: Option<Tab>)
      requires Valid()
      modifies this`loading, this`error
      ensures Valid()
      ensures fetching.Some? <==> |data.Get(activeTab)| == 0
      ensures fetching.Some? ==> fetching.value == activeTab
      ensures fetching.Some? ==> loading == old(loading).Set(activeTab, true)
      ensures fetching.Some? ==> error == old(error).Set(activeTab, None)
      ensures fetching.None? ==> loading == old(loading).Set(activeTab, false) && error == old(error)
    {
      var tab := activeTab;
      if |data.Get(tab)| == 0 {
        loading := loading.Set(tab, true);
        error := error.Set(tab, None);
        fetching := Some(tab);
      } else {
        loading := loading.Set(tab, false);
        fetching := None;
      }
    }

    /** `retryLoad(activeTab)` from the error view's "Retry" button, up to its
        `await`: raise the tab's loading flag and clear its error. */
    method Retry() returns (fetching: Tab)
      requires Valid() && CurrentStates().hasError
      modifies this`loading, this`error
      ensures Valid()
      ensures fetching == activeTab
      ensures loading == old(loading).Set(activeTab, true)
      ensures error == old(error).Set(activeTab, None)
    {
      fetching := activeTab;
      loading := loading.Set(fetching, true);
      error := error.Set(fetching, None);
    }

    /** The rest of a fetch of tab `tab`, started by `LoadEffect` or `Retry`:
        on success store the list, on failure set that tab's failure message;
        either way clear that tab's loading flag. No other tab changes. */
    method CompleteFetch(tab: Tab, fetched: Option<seq<Stock>>)
      requires Valid()
      modifies this`data, this`loading, this`error
      ensures Valid()
      ensures fetched.Some? ==> data == old(data).Set(tab, fetched.value) && error == old(error)
      ensures fetched.None? ==> data == old(data) && error == old(error).Set(tab, Some(FailureMessage(tab)))
      ensures loading == old(loading).Set(tab, false)
    {
      if fetched.Some? {
        data := data.Set(tab, fetched.value);
      } else {
        error := error.Set(tab, Some(FailureMessage(tab)));
      }
      loading := loading.Set(tab, false);
    }
  }

  /** A first load of the gainers tab that fails: the tab then shows its
      failure message with a "Retry" button, and neither rows nor "View More". */
  method FailedFirstLoad() returns (status: TabStatus, rows: seq<Row>, viewMore: bool)
    ensures status == TabStatus(false, true, Some("Failed to load gainers stocks"))
    ensures rows == [] && !viewMore
  {
    var lists := new StockLists();
    var fetching := lists.LoadEffect();
    assert fetching == Some(Gainers);
    lists.CompleteFetch(Gainers, None);
    assert FailureMessage(Gainers) == "Failed to load gainers stocks";
    status := lists.CurrentStates();
    rows := lists.RenderedRows();
    viewMore := lists.ShowViewMore();
  }
}
