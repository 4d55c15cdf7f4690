/** The background service worker (background.js): the per-tab store
    `tabStates`, the badge text and colour, and the effect of each message and
    tab event on the store. Calls into the extension API (`tabs.sendMessage`,
    `action.setBadgeText`, `action.setBadgeBackgroundColor`, `sendResponse`)
    are returned as values instead of being performed. */
module Background {
  import opened Wrappers
  import opened JsValues
  import opened Equalizer

  /** A stored tab record. The store keeps exactly these two fields and does
      not normalise them. */
  datatype TabState = TabState(gain: Num, enabled: bool)

  /** `defaultState` */
  const DefaultTabState: TabState := TabState(Finite(1.0), true)

  /** `tabStates`. A JavaScript `Map` compares number keys with SameValueZero,
      under which NaN equals NaN and both zeros are one key; equality of `Num`
      values behaves the same way. */
  type Store = map<Num, TabState>

  const BadgeColorEnabled: string := "#1f8a70"
  const BadgeColorDisabled: string := "#adb5bd"

  /** What the worker asks the browser to do. */
  datatype Effect =
    | Apply(tab: Num, state: TabState)                 // `volumify:apply` sent to the tab's page
    | Badge(tab: Num, text: string, color: string)     // the tab's badge text and background colour

  /** The store after a lookup, with the record the lookup returned. */
  datatype Lookup = Lookup(store: Store, state: TabState)

  /** `getState`: fetch-or-create. A non-numeric id gets a fresh default record
      that is not stored. */
  function GetState(store: Store, tabId: JsValue): (r: Lookup)
    ensures !tabId.JNumber? ==> r == Lookup(store, DefaultTabState)
    ensures tabId.JNumber? ==> r.store.Keys == store.Keys + {tabId.n} && r.store[tabId.n] == r.state
    ensures tabId.JNumber? && tabId.n !in store ==> r.state == DefaultTabState
    ensures forall k :: k in store ==> r.store[k] == store[k]
  {
    if !tabId.JNumber? then Lookup(store, DefaultTabState)
    else if tabId.n !in store then Lookup(store[tabId.n := DefaultTabState], DefaultTabState)
    else Lookup(store, store[tabId.n])
  }

  /** `getBadgeText`: `"Off"` for a disabled tab, otherwise the gain as a
      rounded percentage in decimal. */
  function BadgeText(s: TabState): (t: string)
    ensures t == "Off" <==> !s.enabled
    ensures s.enabled && s.gain.Finite? ==>
              CanonicalDecimal(t) && ParseDecimal(t) == Some(Round(s.gain.r * 100.0))
    ensures s.enabled && s.gain.NaN? ==> t == "NaN"
    ensures s.enabled && s.gain == PosInf ==> t == "Infinity"
    ensures s.enabled && s.gain == NegInf ==> t == "-Infinity"
  {
    if !s.enabled then "Off"
    else
      match RoundNum(Scale(s.gain, 100.0))
      case Finite(percentage) =>
        var n := Round(s.gain.r * 100.0);
        DecimalRoundTrip(n);
        assert percentage == n as real;
        DecimalString(n)
      case PosInf => "Infinity"
      case NegInf => "-Infinity"
      case NaN => "NaN"
  }

  /** The colour `updateBadge` chooses. */
  function BadgeColor(s: TabState): (c: string)
    ensures c == BadgeColorEnabled <==> s.enabled
    ensures c == BadgeColorDisabled <==> !s.enabled
  {
    if s.enabled then BadgeColorEnabled else BadgeColorDisabled
  }

  /** `updateBadge`: nothing for a non-numeric id. */
  function UpdateBadge(tabId: JsValue, s: TabState): (effects: seq<Effect>)
    ensures !tabId.JNumber? ==> effects == []
    ensures tabId.JNumber? ==> |effects| == 1 && effects[0].Badge? && effects[0].tab == tabId.n
    ensures tabId.JNumber? ==> effects[0].text == BadgeText(s) && effects[0].color == BadgeColor(s)
    ensures tabId.JNumber? ==> (effects[0].text == "Off" <==> !s.enabled)
    ensures tabId.JNumber? ==> (effects[0].color == BadgeColorEnabled <==> s.enabled)
  {
    if !tabId.JNumber? then [] else [Badge(tabId.n, BadgeText(s), BadgeColor(s))]
  }

  /** `applyStateToTab`: push the record to the page, then refresh the badge.
      A push the page cannot receive is dropped by the browser. */
  function ApplyStateToTab(tabId: JsValue, s: TabState): (effects: seq<Effect>)
    ensures !tabId.JNumber? ==> effects == []
    ensures tabId.JNumber? ==> |effects| == 2 && effects[0] == Apply(tabId.n, s)
    ensures tabId.JNumber? ==> effects[1..] == UpdateBadge(tabId, s)
  {
    if !tabId.JNumber? then [] else [Apply(tabId.n, s)] + UpdateBadge(tabId, s)
  }

  /** The messages the worker handles. `ContentReadyMsg` carries the id of the
      sending tab, if the sender is a tab, and the message's own `tabId`. */
  datatype Message =
    | GetSettingsMsg(tabId: JsValue)
    | UpdateSettingsMsg(tabId: JsValue, gain: Num, enabled: bool, eq: Bands<int>, preset: string)
    | ContentReadyMsg(senderTab: Option<Num>, tabId: JsValue)
    | OtherMsg

  datatype Response = Settings(state: TabState) | Ack(ok: bool)

  /** The store after a message, the response sent (if any) and the effects. */
  datatype Reply = Reply(store: Store, response: Option<Response>, effects: seq<Effect>)

  /** The fetch-or-create-and-push of `volumify:getSettings` and
      `volumify:contentReady`. */
  function FetchAndPush(store: Store, tabId: JsValue): (r: Reply)
    ensures forall k :: k in store ==> k in r.store && r.store[k] == store[k]
    ensures !tabId.JNumber? ==> r == Reply(store, Some(Settings(DefaultTabState)), [])
    ensures tabId.JNumber? ==>
              && r.store.Keys == store.Keys + {tabId.n}
              && (tabId.n !in store ==> r.store[tabId.n] == DefaultTabState)
              && r.response == Some(Settings(r.store[tabId.n]))
              && r.effects == [Apply(tabId.n, r.store[tabId.n]),
                               Badge(tabId.n, BadgeText(r.store[tabId.n]), BadgeColor(r.store[tabId.n]))]
  {
    var lookup := GetState(store, tabId);
    Reply(lookup.store, Some(Settings(lookup.state)), ApplyStateToTab(tabId, lookup.state))
  }

  /** `volumify:updateSettings`: a non-numeric id is refused; otherwise the
      tab's record is replaced by exactly the message's gain and enabled flag
      (no merge with the old record, no clamping; `eq` and `preset` are
      dropped). */
  function UpdateSettings(store: Store, tabId: JsValue, gain: Num, enabled: bool): (r: Reply)
    ensures !tabId.JNumber? ==> r == Reply(store, Some(Ack(false)), [])
    ensures tabId.JNumber? ==>
              && r.store.Keys == store.Keys + {tabId.n}
              && r.store[tabId.n] == TabState(gain, enabled)
              && r.response == Some(Ack(true))
              && r.effects == [Apply(tabId.n, TabState(gain, enabled)),
                               Badge(tabId.n, BadgeText(TabState(gain, enabled)), BadgeColor(TabState(gain, enabled)))]
    ensures forall k :: k in store && !(tabId.JNumber? && k == tabId.n) ==> r.store[k] == store[k]
  {
    if !tabId.JNumber? then Reply(store, Some(Ack(false)), [])
    else
      var next := TabState(gain, enabled);
      Reply(store[tabId.n := next], Some(Ack(true)), ApplyStateToTab(tabId, next))
  }

  /** The tab a `volumify:contentReady` message is about:
      `sender.tab?.id ?? message.tabId`. */
  function ContentReadyTab(senderTab: Option<Num>, tabId: JsValue): (t: JsValue)
    ensures senderTab.Some? ==> t == JNumber(senderTab.value)
    ensures senderTab.None? ==> t == tabId
  {
    match senderTab
    case Some(id) => JNumber(id)
    case None => tabId
  }

  /** The `runtime.onMessage` listener. */
  function OnMessage(store: Store, msg: Message): (r: Reply)
    ensures msg.GetSettingsMsg? ==> r == FetchAndPush(store, msg.tabId)
    ensures msg.UpdateSettingsMsg? ==> r == UpdateSettings(store, msg.tabId, msg.gain, msg.enabled)
    ensures msg.ContentReadyMsg? ==> r == FetchAndPush(store, ContentReadyTab(msg.senderTab, msg.tabId))
    ensures msg.OtherMsg? ==> r == Reply(store, None, [])
    ensures forall k :: k in store ==> k in r.store
  {
    match msg
    case GetSettingsMsg(tabId) => FetchAndPush(store, tabId)
    case UpdateSettingsMsg(tabId, gain, enabled, _, _) => UpdateSettings(store, tabId, gain, enabled)
    case ContentReadyMsg(senderTab, tabId) => FetchAndPush(store, ContentReadyTab(senderTab, tabId))
    case OtherMsg => Reply(store, None, [])
  }

  /** The id of the tab a message addresses, if it is numeric. */
  function Target(msg: Message): Option<Num> {
    var tabId :=
      match msg
      case GetSettingsMsg(tabId) => tabId
      case UpdateSettingsMsg(tabId, _, _, _, _) => tabId
      case ContentReadyMsg(senderTab, tabId) => ContentReadyTab(senderTab, tabId)
      case OtherMsg => JOther;
    if tabId.JNumber? then Some(tabId.n) else None
  }

  /** Store isolation: a message changes at most the record of the tab it
      addresses; every other record, and every key, survives. */
  lemma OnMessageIsolation(store: Store, msg: Message)
    ensures var r := OnMessage(store, msg);
            && store.Keys <= r.store.Keys
            && r.store.Keys <= store.Keys + (if Target(msg).Some? then {Target(msg).value} else {})
            && forall k :: k in store && Target(msg) != Some(k) ==> r.store[k] == store[k]
  {
  }

  /** Only `updateSettings` overwrites an existing record. */
  lemma FetchKeepsExisting(store: Store, msg: Message)
    requires !msg.UpdateSettingsMsg?
    ensures forall k :: k in store ==> OnMessage(store, msg).store[k] == store[k]
  {
  }

  /** The `eq` and `preset` of an update never reach the store or the page. */
  lemma UpdateIgnoresEqAndPreset(store: Store, tabId: JsValue, gain: Num, enabled: bool,
                                 eq1: Bands<int>, preset1: string, eq2: Bands<int>, preset2: string)
    ensures OnMessage(store, UpdateSettingsMsg(tabId, gain, enabled, eq1, preset1))
         == OnMessage(store, UpdateSettingsMsg(tabId, gain, enabled, eq2, preset2))
  {
  }

  /** `tabs.onRemoved`: drop the tab's record; a missing one is no error. */
  function OnRemoved(store: Store, tabId: Num): (r: Store)
    ensures r.Keys == store.Keys - {tabId}
    ensures forall k :: k in r ==> r[k] == store[k]
    ensures tabId !in store ==> r == store
  {
    store - {tabId}
  }

  /** `tabs.onUpdated`: re-push the stored record once the page has loaded.
      The store is never changed. */
  function OnUpdated(store: Store, tabId: Num, status: string): (effects: seq<Effect>)
    ensures effects != [] <==> status == "complete" && tabId in store
    ensures effects != [] ==>
              effects == [Apply(tabId, store[tabId]),
                          Badge(tabId, BadgeText(store[tabId]), BadgeColor(store[tabId]))]
  {
    if status == "complete" && tabId in store then ApplyStateToTab(JNumber(tabId), store[tabId])
    else []
  }

  /** `tabs.onActivated`: fetch-or-create the record and refresh only the
      badge. */
  function OnActivated(store: Store, tabId: Num): (r: Reply)
    ensures r.store.Keys == store.Keys + {tabId}
    ensures forall k :: k in store ==> r.store[k] == store[k]
    ensures tabId !in store ==> r.store[tabId] == DefaultTabState
    ensures r.response.None?
    ensures r.effects == [Badge(tabId, BadgeText(r.store[tabId]), BadgeColor(r.store[tabId]))]
  {
    var lookup := GetState(store, JNumber(tabId));
    Reply(lookup.store, None, UpdateBadge(JNumber(tabId), lookup.state))
  }

  /** The badge text of an enabled tab with a finite gain is fixed by the
      contract of `BadgeText` alone: it is `String(Math.round(gain * 100))`. */
  lemma BadgeTextIsDecimal(s: TabState)
    requires s.enabled && s.gain.Finite?
    ensures BadgeText(s) == DecimalString(Round(s.gain.r * 100.0))
  {
    DecimalStringUnique(BadgeText(s));
  }

  /** A gain of 1.5 on an enabled tab shows as "150". */
  lemma BadgeExample()
    ensures BadgeText(TabState(Finite(1.5), true)) == "150"
  {
    var t := BadgeText(TabState(Finite(1.5), true));
    assert Round(1.5 * 100.0) == 150;
    assert NatDigits(150) == "150" by {
      assert NatDigits(15) == "15" by {
        assert NatDigits(1) == "1";
      }
    }
  }
}
