/**
  The Slack connector settings page (app/integrations/slack/page.tsx).

  Six pieces of page state are changed by the connect, disconnect, reconnect
  and channel-toggle handlers; the page decides by what it renders which
  handler can be invoked in which state.  The state is a class whose fields
  are those six cells.  The OAuth round trip (`Math.random()` after a timer)
  becomes a `success` parameter, and each asynchronous handler is split at
  its `await`: `BeginConnect`/`CompleteConnect` and
  `BeginReconnect`/`CompleteReconnect`, with `Connect` and `Reconnect`
  running both halves back to back.  The list rebuild of the toggle, the
  visible-channel filter and the status badge are pure functions.
*/
module SlackIntegration {

  import opened Wrappers
  import opened Seqs

  datatype ConnectionStatus = Disconnected | Connecting | Connected | Error

  type ChannelId = string

  datatype Channel = Channel(id: ChannelId, name: string, memberCount: nat, isPrivate: bool)

  /** The values the retention select offers, in days. */
  const RetentionOptions: seq<string> := ["7", "30", "90", "180", "365"]
  const DefaultRetention: string := "30"

  /** The message of the error thrown when authorization fails. */
  const AuthFailedMessage: string := "認証に失敗しました。再度お試しください。"
  const ReconnectFailedMessage: string := "再接続に失敗しました"

  // ---------------------------------------------------------------------
  // Channel selection: the list rebuild of `handleChannelToggle`

  /** Remove `id` if it is selected, append it otherwise. */
  function Toggle(selected: seq<ChannelId>, id: ChannelId): (r: seq<ChannelId>)
    ensures id in r <==> id !in selected
    ensures forall x :: x in selected && x != id ==> x in r
    ensures forall x :: x in r && x != id ==> x in selected
  {
    if id in selected then Filter(selected, x => x != id) else selected + [id]
  }

  /** A toggle never creates a duplicate entry. */
  lemma TogglePreservesNoDuplicates(selected: seq<ChannelId>, id: ChannelId)
    requires NoDuplicates(selected)
    ensures NoDuplicates(Toggle(selected, id))
  {
    if id in selected {
      FilterNoDuplicates(selected, x => x != id);
    } else {
      var r := selected + [id];
      forall i, j | 0 <= i < j < |r| ensures r[i] != r[j] {
        if j == |selected| {
          assert r[i] == selected[i];
        }
      }
    }
  }

  /** Toggling an unselected channel twice gives back exactly the same list. */
  lemma ToggleTwiceRestoresList(selected: seq<ChannelId>, id: ChannelId)
    requires id !in selected
    ensures Toggle(Toggle(selected, id), id) == selected
  {
    var once := selected + [id];
    assert id in once;
    FilterAppend(selected, [id], x => x != id);
    FilterKeepsAll(selected, x => x != id);
    assert Filter([id], x => x != id) == [];
  }

  /**
    Toggling a selected channel twice gives back the same set of channels;
    the channel moves to the end of the list.
  */
  lemma ToggleTwiceRestoresSet(selected: seq<ChannelId>, id: ChannelId)
    requires id in selected
    ensures Toggle(Toggle(selected, id), id) == Filter(selected, x => x != id) + [id]
    ensures forall x :: x in Toggle(Toggle(selected, id), id) <==> x in selected
  {
  }

  // ---------------------------------------------------------------------
  // Visible channels

  /** The channel checkboxes: every channel, or only the public ones. */
  function VisibleChannels(channels: seq<Channel>, includePrivate: bool): (r: seq<Channel>)
    ensures forall c :: c in r ==> c in channels && (includePrivate || !c.isPrivate)
    ensures forall c :: c in channels && (includePrivate || !c.isPrivate) ==> c in r
    ensures forall c {:trigger multiset(r)[c]} :: multiset(r)[c] == if includePrivate || !c.isPrivate then multiset(channels)[c] else 0
  {
    FilterCounts(channels, (c: Channel) => includePrivate || !c.isPrivate);
    Filter(channels, (c: Channel) => includePrivate || !c.isPrivate)
  }

  /** The visible channels keep the directory's order. */
  lemma VisibleChannelsPreserveOrder(channels: seq<Channel>, includePrivate: bool)
    ensures IsSubsequence(VisibleChannels(channels, includePrivate), channels)
  {
    FilterIsSubsequence(channels, (c: Channel) => includePrivate || !c.isPrivate);
  }

  /** With private channels included, every channel is shown. */
  lemma VisibleChannelsWithPrivateAreAll(channels: seq<Channel>)
    ensures VisibleChannels(channels, true) == channels
  {
    FilterKeepsAll(channels, (c: Channel) => true || !c.isPrivate);
  }

  function ChannelIds(channels: seq<Channel>): (ids: seq<ChannelId>)
    ensures |ids| == |channels|
    ensures forall i :: 0 <= i < |channels| ==> ids[i] == channels[i].id
  {
    seq(|channels|, i requires 0 <= i < |channels| => channels[i].id)
  }

  // ---------------------------------------------------------------------
  // Status badge and render guards

  /** `getStatusBadge`: the label of the badge beside the card title. */
  function StatusBadgeLabel(status: ConnectionStatus): string {
    match status
    case Connected => "接続済み"
    case Connecting => "接続中"
    case Error => "エラー"
    case Disconnected => "未接続"
  }

  /** The four statuses get four different labels. */
  lemma StatusBadgeLabelsDistinct(s: ConnectionStatus, t: ConnectionStatus)
    ensures StatusBadgeLabel(s) == StatusBadgeLabel(t) <==> s == t
  {
    if s != t {
      assert StatusBadgeLabel(s)[2] != StatusBadgeLabel(t)[2];
    }
  }

  /** "Slackに接続" (disconnected) or "再試行" (error with a message) is rendered. */
  predicate ConnectOffered(status: ConnectionStatus, error: Option<string>) {
    status == Disconnected || (status == Error && error.Some?)
  }

  /** The reconnect button: rendered when connected, disabled while reconnecting. */
  predicate ReconnectOffered(status: ConnectionStatus, isReconnecting: bool) {
    status == Connected && !isReconnecting
  }

  /** The disconnect button: rendered when connected. */
  predicate DisconnectOffered(status: ConnectionStatus) {
    status == Connected
  }

  /** The channel, retention and save card: rendered when connected. */
  predicate ConfigurationShown(status: ConnectionStatus) {
    status == Connected
  }

  /** The save button is enabled iff some channel is selected. */
  predicate SaveEnabled(selected: seq<ChannelId>) {
    |selected| != 0
  }

  /**
    Connecting and configuring are never offered together, and while a
    connection is being established nothing at all is offered.
  */
  lemma OfferedActionsAreExclusive(status: ConnectionStatus, error: Option<string>, isReconnecting: bool)
    ensures ConnectOffered(status, error) ==> !DisconnectOffered(status) && !ReconnectOffered(status, isReconnecting)
    ensures ReconnectOffered(status, isReconnecting) ==> DisconnectOffered(status) && ConfigurationShown(status)
    ensures status == Connecting ==>
      !ConnectOffered(status, error) && !DisconnectOffered(status) && !ConfigurationShown(status)
  {
  }

  // ---------------------------------------------------------------------
  // The page state

  class SlackConnector {
    /** The workspace's channel directory; never changed by the page. */
    const channels: seq<Channel>

    var connectionStatus: ConnectionStatus
    var selectedChannels: seq<ChannelId>
    var includePrivateChannels: bool
    var dataRetentionDays: string
    var error: Option<string>
    var isReconnecting: bool

    /**
      What every state the model reaches satisfies: retention is one of the offered
      values, the selection has no duplicates and names only known channels,
      an error status always carries a message (so the retry button is
      always rendered), and channels are selected only while connected.
    */
    ghost predicate Valid()
      reads this
    {
      && dataRetentionDays in RetentionOptions
      && NoDuplicates(selectedChannels)
      && (forall x :: x in selectedChannels ==> x in ChannelIds(channels))
      && (connectionStatus == Error ==> error.Some?)
      && (connectionStatus != Connected ==> selectedChannels == [])
    }

    /** The six `useState` initial values. */
    constructor (channels: seq<Channel>)
      ensures Valid()
      ensures this.channels == channels
      ensures connectionStatus == Disconnected && selectedChannels == []
      ensures !includePrivateChannels && dataRetentionDays == DefaultRetention
      ensures error == None && !isReconnecting
    {
      this.channels := channels;
      connectionStatus := Disconnected;
      selectedChannels := [];
      includePrivateChannels := false;
      dataRetentionDays := DefaultRetention;
      error := None;
      isReconnecting := false;
    }

    /** `handleConnect` up to its `await`: status "connecting", error cleared. */
    method BeginConnect()
      requires Valid() && ConnectOffered(connectionStatus, error)
      modifies this
      ensures Valid()
      ensures connectionStatus == Connecting && error == None
      ensures selectedChannels == old(selectedChannels) && includePrivateChannels == old(includePrivateChannels)
      ensures dataRetentionDays == old(dataRetentionDays) && isReconnecting == old(isReconnecting)
    {
      connectionStatus := Connecting;
      error := None;
    }

    /** `handleConnect` after its `await`: connected, or an error with the thrown message. */
    method CompleteConnect(success: bool)
      requires Valid() && connectionStatus == Connecting
      modifies this
      ensures Valid()
      ensures success ==> connectionStatus == Connected && error == old(error)
      ensures !success ==> connectionStatus == Error && error == Some(AuthFailedMessage)
      ensures selectedChannels == old(selectedChannels) && includePrivateChannels == old(includePrivateChannels)
      ensures dataRetentionDays == old(dataRetentionDays) && isReconnecting == old(isReconnecting)
    {
      if success {
        connectionStatus := Connected;
      } else {
        connectionStatus := Error;
        error := Some(AuthFailedMessage);
      }
    }

    /** The whole of `handleConnect`, with the authorization outcome given. */
    method Connect(success: bool)
      requires Valid() && ConnectOffered(connectionStatus, error)
      modifies this
      ensures Valid()
      ensures success ==> connectionStatus == Connected && error == None
      ensures !success ==> connectionStatus == Error && error == Some(AuthFailedMessage)
      ensures selectedChannels == old(selectedChannels) && includePrivateChannels == old(includePrivateChannels)
      ensures dataRetentionDays == old(dataRetentionDays) && isReconnecting == old(isReconnecting)
    {
      BeginConnect();
      CompleteConnect(success);
    }

    /** `handleDisconnect`: disconnected, no channel selected, no error. */
    method Disconnect()
      requires Valid() && DisconnectOffered(connectionStatus)
      modifies this
      ensures Valid()
      ensures connectionStatus == Disconnected && selectedChannels == [] && error == None
      ensures includePrivateChannels == old(includePrivateChannels)
      ensures dataRetentionDays == old(dataRetentionDays) && isReconnecting == old(isReconnecting)
    {
      connectionStatus := Disconnected;
      selectedChannels := [];
      error := None;
    }

    /** `handleReconnect` up to its `await`: reconnecting, error cleared. */
    method BeginReconnect()
      requires Valid() && ReconnectOffered(connectionStatus, isReconnecting)
      modifies this
      ensures Valid()
      ensures isReconnecting && error == None
      ensures connectionStatus == old(connectionStatus) && selectedChannels == old(selectedChannels)
      ensures includePrivateChannels == old(includePrivateChannels) && dataRetentionDays == old(dataRetentionDays)
    {
      isReconnecting := true;
      error := None;
    }

    /**
      `handleReconnect` after its `await`: connected on success; on failure
      the status is left as it is and the failure message is set.  Either
      way the reconnecting flag is cleared and the selection kept.
    */
    method CompleteReconnect(success: bool)
      requires Valid() && isReconnecting
      modifies this
      ensures Valid()
      ensures !isReconnecting
      ensures success ==> connectionStatus == Connected && error == old(error)
      ensures !success ==> connectionStatus == old(connectionStatus) && error == Some(ReconnectFailedMessage)
      ensures selectedChannels == old(selectedChannels)
      ensures includePrivateChannels == old(includePrivateChannels) && dataRetentionDays == old(dataRetentionDays)
    {
      if success {
        connectionStatus := Connected;
      } else {
        error := Some(ReconnectFailedMessage);
      }
      isReconnecting := false;
    }

    /** The whole of `handleReconnect`: the session stays connected whatever the outcome. */
    method Reconnect(success: bool)
      requires Valid() && ReconnectOffered(connectionStatus, isReconnecting)
      modifies this
      ensures Valid()
      ensures connectionStatus == Connected && !isReconnecting
      ensures error == if success then None else Some(ReconnectFailedMessage)
      ensures selectedChannels == old(selectedChannels)
      ensures includePrivateChannels == old(includePrivateChannels) && dataRetentionDays == old(dataRetentionDays)
    {
      BeginReconnect();
      CompleteReconnect(success);
    }

    /** `handleChannelToggle`, invoked from the checkbox of a visible channel. */
    method ToggleChannel(id: ChannelId)
      requires Valid() && ConfigurationShown(connectionStatus)
      requires id in ChannelIds(VisibleChannels(channels, includePrivateChannels))
      modifies this
      ensures Valid()
      ensures selectedChannels == Toggle(old(selectedChannels), id)
      ensures connectionStatus == old(connectionStatus) && error == old(error) && isReconnecting == old(isReconnecting)
      ensures includePrivateChannels == old(includePrivateChannels) && dataRetentionDays == old(dataRetentionDays)
    {
      TogglePreservesNoDuplicates(selectedChannels, id);
      var visible := VisibleChannels(channels, includePrivateChannels);
      var v :| 0 <= v < |visible| && visible[v].id == id;
      assert visible[v] in channels;
      var k :| 0 <= k < |channels| && channels[k] == visible[v];
      assert ChannelIds(channels)[k] == id;
      selectedChannels := Toggle(selectedChannels, id);
    }

    /** The "include private channels" switch: the selection is left as it is. */
    method SetIncludePrivateChannels(checked: bool)
      requires Valid() && ConfigurationShown(connectionStatus)
      modifies this
      ensures Valid()
      ensures includePrivateChannels == checked
      ensures selectedChannels == old(selectedChannels) && connectionStatus == old(connectionStatus)
      ensures error == old(error) && isReconnecting == old(isReconnecting) && dataRetentionDays == old(dataRetentionDays)
    {
      includePrivateChannels := checked;
    }

    /** The retention select, which only offers `RetentionOptions`. */
    method SetDataRetentionDays(days: string)
      requires Valid() && ConfigurationShown(connectionStatus)
      requires days in RetentionOptions
      modifies this
      ensures Valid()
      ensures dataRetentionDays == days
      ensures selectedChannels == old(selectedChannels) && connectionStatus == old(connectionStatus)
      ensures error == old(error) && isReconnecting == old(isReconnecting)
      ensures includePrivateChannels == old(includePrivateChannels)
    {
      dataRetentionDays := days;
    }
  }

  /**
    In every state the model reaches, other than "connecting", some way forward is
    rendered: connect / retry, or disconnect.
  */
  lemma SettledStateOffersAction(c: SlackConnector)
    requires c.Valid() && c.connectionStatus != Connecting
    ensures ConnectOffered(c.connectionStatus, c.error) || DisconnectOffered(c.connectionStatus)
  {
  }

  /** Save can only be enabled while the configuration card is on screen. */
  lemma SaveEnabledOnlyWhenConfigurable(c: SlackConnector)
    requires c.Valid() && SaveEnabled(c.selectedChannels)
    ensures ConfigurationShown(c.connectionStatus)
  {
  }

  // ---------------------------------------------------------------------
  // Sessions over the page's own channel directory

  const MockSlackChannels: seq<Channel> := [
    Channel("C1234567890", "general", 45, false),
    Channel("C2345678901", "random", 32, false),
    Channel("C3456789012", "engineering", 15, false),
    Channel("C4567890123", "hr-team", 8, true),
    Channel("C5678901234", "management", 12, true),
    Channel("C6789012345", "project-alpha", 6, false)
  ]

  /** Connect, pick #general, disconnect: back to the initial connection state with nothing selected. */
  method ConnectSelectDisconnect() returns (status: ConnectionStatus, selected: seq<ChannelId>, err: Option<string>)
    ensures status == Disconnected && selected == [] && err == None
  {
    var page := new SlackConnector(MockSlackChannels);
    page.Connect(true);
    assert MockSlackChannels[0] in VisibleChannels(MockSlackChannels, false);
    page.ToggleChannel("C1234567890");
    page.Disconnect();
    status, selected, err := page.connectionStatus, page.selectedChannels, page.error;
  }

  /** A failed reconnect keeps the session connected and the selection intact, and reports the failure. */
  method FailedReconnectKeepsSession() returns (status: ConnectionStatus, selected: seq<ChannelId>, err: Option<string>)
    ensures status == Connected && selected == ["C1234567890"] && err == Some(ReconnectFailedMessage)
  {
    var page := new SlackConnector(MockSlackChannels);
    page.Connect(true);
    assert MockSlackChannels[0] in VisibleChannels(MockSlackChannels, false);
    page.ToggleChannel("C1234567890");
    page.Reconnect(false);
    status, selected, err := page.connectionStatus, page.selectedChannels, page.error;
  }

  /**
    Selecting #hr-team with private channels shown and then hiding them
    leaves #hr-team selected although its checkbox is no longer rendered.
  */
  method HiddenChannelStaysSelected() returns (selected: seq<ChannelId>, visible: seq<Channel>)
    ensures "C4567890123" in selected
    ensures forall c :: c in visible ==> c.id != "C4567890123"
  {
    var page := new SlackConnector(MockSlackChannels);
    page.Connect(true);
    page.SetIncludePrivateChannels(true);
    VisibleChannelsWithPrivateAreAll(MockSlackChannels);
    assert ChannelIds(MockSlackChannels)[3] == "C4567890123";
    page.ToggleChannel("C4567890123");
    page.SetIncludePrivateChannels(false);
    selected := page.selectedChannels;
    visible := VisibleChannels(page.channels, page.includePrivateChannels);
    PrivateChannelHidden();
  }

  /** #hr-team is private, so it is not among the channels shown without private ones. */
  lemma PrivateChannelHidden()
    ensures forall c :: c in VisibleChannels(MockSlackChannels, false) ==> c.id != "C4567890123"
  {
    forall c | c in VisibleChannels(MockSlackChannels, false) ensures c.id != "C4567890123" {
      var k :| 0 <= k < |MockSlackChannels| && MockSlackChannels[k] == c;
      assert k != 3 && k != 4;
    }
  }
}
