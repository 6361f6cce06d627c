/**
  The main screen: the configuration form, the category tabs, the listing
  request, and moving from channel to channel while the player is open.
*/
module Navigation {
  import opened Wrappers
  import opened Text
  import opened Catalog
  import Player

  // ---------------------------------------------------------------------
  // Channel to channel
  // ---------------------------------------------------------------------

  /** `findIndex`: the first position whose id is the current channel's, or -1 (also when there is no current channel). */
  function FindIndex(channels: seq<Channel>, current: Option<Channel>): (i: int)
    ensures -1 <= i < |channels|
    ensures i >= 0 ==> current.Some? && channels[i].id == current.value.id
    ensures i >= 0 ==> forall k :: 0 <= k < i ==> channels[k].id != current.value.id
    ensures i == -1 ==> current.None? || forall k :: 0 <= k < |channels| ==> channels[k].id != current.value.id
  {
    match current
    case None => -1
    case Some(c) => FindFrom(channels, c.id, 0)
  }

  function FindFrom(channels: seq<Channel>, id: int, from: nat): (i: int)
    requires from <= |channels|
    ensures i == -1 || from <= i < |channels|
    ensures i >= 0 ==> channels[i].id == id && forall k :: from <= k < i ==> channels[k].id != id
    ensures i == -1 ==> forall k :: from <= k < |channels| ==> channels[k].id != id
    decreases |channels| - from
  {
    if from == |channels| then -1
    else if channels[from].id == id then from
    else FindFrom(channels, id, from + 1)
  }

  /** The index after `current` in a list of `count`, wrapping past the end; -1 counts as before the start. */
  function NextIndex(current: int, count: int): (next: int)
    ensures 0 < count && -1 <= current < count ==> 0 <= next < count
    ensures next == 0 || next == current + 1
  {
    if current < count - 1 then current + 1 else 0
  }

  /** The index before `current`, wrapping from the start (and from -1) to the last index. */
  function PrevIndex(current: int, count: int): (prev: int)
    ensures 0 < count && -1 <= current < count ==> 0 <= prev < count
    ensures prev == count - 1 || prev == current - 1
  {
    if current > 0 then current - 1 else count - 1
  }

  /** `handleChannelChange`: the channel to switch to, or `None` when the list has nothing there. */
  function PickChannel(channels: seq<Channel>, current: Option<Channel>, direction: Player.Direction): (pick: Option<Channel>)
    ensures pick.None? <==> channels == []
    ensures pick.Some? ==> pick.value in channels
  {
    var i := FindIndex(channels, current);
    var n := if direction == Player.Next then NextIndex(i, |channels|) else PrevIndex(i, |channels|);
    if 0 <= n < |channels| then Some(channels[n]) else None
  }

  /** Next from i is i + 1, and from the last index wraps to 0; prev from i is i - 1, and from 0 wraps to the last. */
  lemma WrapAround(i: int, count: int)
    requires 0 <= i < count
    ensures NextIndex(i, count) == if i == count - 1 then 0 else i + 1
    ensures PrevIndex(i, count) == if i == 0 then count - 1 else i - 1
  {
  }

  /** From anywhere in a non-empty list, or from outside it (-1), both directions land on a valid index. */
  lemma StepsStayInList(i: int, count: int)
    requires count > 0 && -1 <= i < count
    ensures 0 <= NextIndex(i, count) < count
    ensures 0 <= PrevIndex(i, count) < count
  {
  }

  /** A current channel missing from a non-empty list: next picks the first channel, prev the last. */
  lemma MissingCurrentChannel(channels: seq<Channel>, current: Option<Channel>)
    requires |channels| > 0
    requires current.None? || forall k :: 0 <= k < |channels| ==> channels[k].id != current.value.id
    ensures PickChannel(channels, current, Player.Next) == Some(channels[0])
    ensures PickChannel(channels, current, Player.Prev) == Some(channels[|channels| - 1])
  {
  }

  /** An empty list gives nothing to switch to, so nothing changes. */
  lemma EmptyListPicksNothing(current: Option<Channel>, direction: Player.Direction)
    ensures PickChannel([], current, direction) == None
  {
  }

  /** A non-empty list always gives a channel of the list. */
  lemma NonEmptyListPicks(channels: seq<Channel>, current: Option<Channel>, direction: Player.Direction)
    requires |channels| > 0
    ensures PickChannel(channels, current, direction).Some?
    ensures PickChannel(channels, current, direction).value in channels
  {
    StepsStayInList(FindIndex(channels, current), |channels|);
  }

  predicate DistinctIds(channels: seq<Channel>) {
    forall i, j :: 0 <= i < j < |channels| ==> channels[i].id != channels[j].id
  }

  lemma FindIndexOfMember(channels: seq<Channel>, n: int)
    requires DistinctIds(channels) && 0 <= n < |channels|
    ensures FindIndex(channels, Some(channels[n])) == n
  {
  }

  /** With distinct ids, next then prev (and prev then next) comes back to the channel playing. */
  lemma NextPrevInverse(channels: seq<Channel>, n: int)
    requires DistinctIds(channels) && 0 <= n < |channels|
    ensures var c := Some(channels[n]);
      PickChannel(channels, PickChannel(channels, c, Player.Next), Player.Prev) == c
    ensures var c := Some(channels[n]);
      PickChannel(channels, PickChannel(channels, c, Player.Prev), Player.Next) == c
  {
    FindIndexOfMember(channels, n);
    var next := NextIndex(n, |channels|);
    var prev := PrevIndex(n, |channels|);
    FindIndexOfMember(channels, next);
    FindIndexOfMember(channels, prev);
  }

  // ---------------------------------------------------------------------
  // Category tabs and the listing request
  // ---------------------------------------------------------------------

  /** A category as the service lists it. */
  datatype Category = Category(categoryId: int, categoryName: string, parentId: int)

  /** The synthetic first tab. */
  const AllTab := Category(0, "All", 0)

  /** The tabs shown: "All" followed by the service's categories. */
  function Tabs(categories: seq<Category>): (tabs: seq<Category>)
    ensures |tabs| == |categories| + 1 && tabs[0] == AllTab && tabs[1..] == categories
  {
    [AllTab] + categories
  }

  /** The selection a tab press makes: no category for id 0, the tab's own id otherwise. */
  function CategorySelection(tabId: int): (sel: Option<int>)
    ensures sel.None? <==> tabId == 0
    ensures sel.Some? ==> sel.value == tabId
  {
    if tabId == 0 then None else Some(tabId)
  }

  /** `selectedCategory || undefined`: no category for null and for 0. */
  function CategoryArgument(selected: Option<int>): (arg: Option<int>)
    ensures arg.Some? <==> selected.Some? && selected.value != 0
    ensures arg.Some? ==> arg == selected
  {
    match selected
    case Some(c) => if c != 0 then Some(c) else None
    case None => None
  }

  /** The listing request sends a category exactly for a non-zero selection; the `||` guard and the service's own guard agree. */
  lemma ListingRequest(kind: StreamKind, selected: Option<int>)
    ensures StreamsParams(kind, CategoryArgument(selected)) == StreamsParams(kind, selected)
    ensures "category_id" in StreamsParams(kind, CategoryArgument(selected)) <==> selected.Some? && selected.value != 0
  {
  }

  /** As rendered: a tab is highlighted when the selection equals its id, so a null selection highlights nothing. */
  predicate TabHighlightedAsWritten(selected: Option<int>, tab: Category) {
    selected == Some(tab.categoryId)
  }

  /** After pressing "All", no tab is highlighted, not even "All". */
  lemma AllTabNeverHighlighted(categories: seq<Category>)
    ensures forall t :: t in Tabs(categories) ==> !TabHighlightedAsWritten(CategorySelection(AllTab.categoryId), t)
  {
  }

  /** Highlight the tab whose press gives the current selection. */
  predicate TabHighlighted(selected: Option<int>, tab: Category) {
    CategorySelection(tab.categoryId) == selected
  }

  /** With the corrected rule, after pressing a tab that tab is highlighted, and no tab with another id is. */
  lemma PressedTabHighlighted(categories: seq<Category>, pressed: Category, t: Category)
    ensures TabHighlighted(CategorySelection(pressed.categoryId), pressed)
    ensures TabHighlighted(CategorySelection(pressed.categoryId), t) ==> t.categoryId == pressed.categoryId
    ensures TabHighlighted(CategorySelection(AllTab.categoryId), AllTab)
  {
  }

  // ---------------------------------------------------------------------
  // Messages
  // ---------------------------------------------------------------------

  const FillAllFields := "Please fill in all fields"
  const AuthenticationFailed := "Authentication failed. Please check your credentials."
  const StreamUrlFailed := "Failed to get stream URL"

  /** The configuration form's check: every field must be non-empty. */
  predicate FormComplete(url: string, username: string, password: string) {
    url != "" && username != "" && password != ""
  }

  /**
    `result || []` behind a `catch` that returns `[]`: what a listing fetch
    gives the screen, the fetched list or an empty one.
  */
  function FetchedOrEmpty<T>(fetched: Option<seq<T>>): (list: seq<T>)
    ensures fetched.Some? ==> list == fetched.value
    ensures fetched.None? ==> list == []
  {
    match fetched
    case Some(l) => l
    case None => []
  }

  // ---------------------------------------------------------------------
  // The main screen
  // ---------------------------------------------------------------------

  /** The state fields of the main screen. */
  datatype Screen = Screen(
    isConfigured: bool,
    currentChannel: Option<Channel>,
    channels: seq<Channel>,
    categories: seq<Category>,
    selectedCategory: Option<int>,
    streamType: StreamKind,
    streamUrl: string,
    showPlayer: bool)

  /** The state on start. */
  const InitialScreen := Screen(false, None, [], [], None, LiveKind, "", false)

  class MainApp {
    const api: CatalogApi
    var isConfigured: bool
    var currentChannel: Option<Channel>
    var channels: seq<Channel>
    var categories: seq<Category>
    var selectedCategory: Option<int>
    var streamType: StreamKind
    var streamUrl: string
    var showPlayer: bool

    function View(): Screen
      reads this
    {
      Screen(isConfigured, currentChannel, channels, categories, selectedCategory, streamType, streamUrl, showPlayer)
    }

    constructor (api: CatalogApi)
      ensures this.api == api && View() == InitialScreen
    {
      this.api := api;
      isConfigured := false;
      currentChannel := None;
      channels := [];
      categories := [];
      selectedCategory := None;
      streamType := LiveKind;
      streamUrl := "";
      showPlayer := false;
    }

    /**
      The start-up effect: adopt the saved configuration and, when the
      server accepts it, show the main screen. `serverAccepts` stands for the
      server's reply.
    */
    method Startup(saved: Stored, serverAccepts: bool)
      modifies this, api
      ensures var accepted := saved.Saved? && EffectiveBaseUrl(api.fixedPortal, saved.config.url) != "" && serverAccepts;
        View() == old(View()).(isConfigured := old(isConfigured) || accepted)
      ensures saved.Saved? ==> api.config == Some(saved.config)
      ensures saved.Saved? ==> api.baseUrl == EffectiveBaseUrl(api.fixedPortal, saved.config.url)
      ensures !saved.Saved? ==> api.config == old(api.config) && api.baseUrl == old(api.baseUrl)
    {
      var config := api.LoadConfig(saved);
      if config.Some? {
        var ok := api.Authenticate(serverAccepts);
        if ok {
          isConfigured := true;
        }
      }
    }

    /**
      `handleSaveConfig`: an incomplete form only raises an alert; otherwise
      the configuration is stored, then authenticated, and on success the
      main screen shows.
    */
    method SaveConfig(url: string, username: string, password: string, serverAccepts: bool) returns (alert: Option<string>)
      modifies this, api
      ensures !FormComplete(url, username, password) ==>
        alert == Some(FillAllFields) && View() == old(View())
        && api.config == old(api.config) && api.baseUrl == old(api.baseUrl)
      ensures FormComplete(url, username, password) ==>
        api.config == Some(Config(url, username, password))
        && api.baseUrl == EffectiveBaseUrl(api.fixedPortal, url)
      ensures FormComplete(url, username, password) ==>
        var ok := api.baseUrl != "" && serverAccepts;
        View() == old(View()).(isConfigured := old(isConfigured) || ok)
        && alert == (if ok then None else Some(AuthenticationFailed))
    {
      if url == "" || username == "" || password == "" {
        alert := Some(FillAllFields);
        return;
      }
      api.SetConfig(Config(url, username, password));
      var ok := api.Authenticate(serverAccepts);
      if ok {
        isConfigured := true;
        alert := None;
      } else {
        alert := Some(AuthenticationFailed);
      }
    }

    /**
      `loadData`: the listing request for the current kind and category.
      `categoryFetch` and `channelFetch` stand for the two fetches; `None` is
      a fetch that failed or answered nothing, which the service client turns
      into an empty list, so the screen shows an empty list and no alert.
    */
    method LoadData(categoryFetch: Option<seq<Category>>, channelFetch: Option<seq<Channel>>) returns (request: map<string, string>)
      modifies this
      ensures request == StreamsParams(streamType, CategoryArgument(selectedCategory))
      ensures View() == old(View()).(categories := FetchedOrEmpty(categoryFetch), channels := FetchedOrEmpty(channelFetch))
    {
      request := StreamsParams(streamType, CategoryArgument(selectedCategory));
      categories := FetchedOrEmpty(categoryFetch);
      channels := FetchedOrEmpty(channelFetch);
    }

    /** `handleChannelSelect`: on a stream address, open the player on the channel; on failure, only an alert. */
    method SelectChannel(channel: Channel) returns (alert: Option<string>)
      modifies this
      ensures var r := api.GetStreamUrl(channel.id, channel.streamType, None);
        && (r.Success? ==> View() == old(View()).(streamUrl := r.value, currentChannel := Some(channel), showPlayer := true) && alert == None)
        && (r.Failure? ==> View() == old(View()) && alert == Some(StreamUrlFailed))
    {
      var r := api.GetStreamUrl(channel.id, channel.streamType, None);
      match r
      case Success(url) =>
        streamUrl := url;
        currentChannel := Some(channel);
        showPlayer := true;
        alert := None;
      case Failure(_) =>
        alert := Some(StreamUrlFailed);
    }

    /** `handleChannelChange`: select the neighbouring channel, if the list has one. */
    method ChangeChannel(direction: Player.Direction) returns (alert: Option<string>)
      modifies this
      ensures var pick := PickChannel(old(channels), old(currentChannel), direction);
        && (pick.None? ==> View() == old(View()) && alert == None)
        && (pick.Some? ==> var r := api.GetStreamUrl(pick.value.id, pick.value.streamType, None);
             && (r.Success? ==> View() == old(View()).(streamUrl := r.value, currentChannel := pick, showPlayer := true) && alert == None)
             && (r.Failure? ==> View() == old(View()) && alert == Some(StreamUrlFailed)))
    {
      var pick := PickChannel(channels, currentChannel, direction);
      if pick.Some? {
        alert := SelectChannel(pick.value);
      } else {
        alert := None;
      }
    }

    /** `handlePlayerClose`: hide the player and forget the channel and its address. */
    method ClosePlayer()
      modifies this
      ensures View() == old(View()).(showPlayer := false, currentChannel := None, streamUrl := "")
    {
      showPlayer := false;
      currentChannel := None;
      streamUrl := "";
    }

    /** A tab press. */
    method SelectCategory(tabId: int)
      modifies this
      ensures View() == old(View()).(selectedCategory := CategorySelection(tabId))
    {
      selectedCategory := CategorySelection(tabId);
    }

    /** The stream-type switch: a new kind always starts from no category. */
    method SelectStreamType(kind: StreamKind)
      modifies this
      ensures View() == old(View()).(streamType := kind, selectedCategory := None)
    {
      streamType := kind;
      selectedCategory := None;
    }
  }
}
