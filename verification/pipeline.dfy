/** How the three parts fit together: a popup state pushed with
    `volumify:updateSettings`, stored by the worker, sent back to the page with
    `volumify:apply` and read again by a popup that is opened later. */
module Pipeline {
  import opened Wrappers
  import opened JsValues
  import opened Equalizer
  import Popup
  import opened Background
  import Content

  /** The worker handling the message `pushState` sent. */
  function Deliver(store: Store, m: Popup.UpdateMessage): Reply {
    OnMessage(store, UpdateSettingsMsg(JNumber(m.tabId), m.gain, m.enabled, m.eq, m.preset))
  }

  /** A `volumify:getSettings` response as `createState` sees it: the stored
      record has only `gain` and `enabled`, so `eq` and `preset` are missing. */
  function ResponseAsPartial(s: TabState): Popup.Partial {
    Popup.Partial(JNumber(s.gain), JBool(s.enabled), Bands(NaN, NaN, NaN), JOther)
  }

  /** A pushed popup state is stored as its gain and enabled flag, pushed to
      the page, and the page's gain node ends at `enabled ? gain : 1`. */
  lemma PushReachesPage(s: Popup.State, tab: Num, store: Store, c: Content.Controller)
    requires Popup.Valid(s)
    ensures var pushed := Popup.PushState(s, JNumber(tab));
            && pushed.state == s
            && pushed.message.Some?
            && var reply := Deliver(store, pushed.message.value);
               && reply.store[tab] == TabState(s.gain, s.enabled)
               && reply.effects[0] == Apply(tab, TabState(s.gain, s.enabled))
               && var page := Content.OnApply(c, s.gain, s.enabled);
                  Content.HasGainNode(c) ==>
                    page.audio.value.node.value == (if s.enabled then s.gain else Finite(1.0))
  {
  }

  /** The equaliser does not survive a round trip through the worker: a popup
      opened later restores the gain and the enabled flag but falls back to the
      default bands and preset. */
  lemma EqNotPersisted(s: Popup.State, tab: Num, store: Store)
    requires Popup.Valid(s)
    ensures var stored := Deliver(store, Popup.PushState(s, JNumber(tab)).message.value).store;
            var fetched := OnMessage(stored, GetSettingsMsg(JNumber(tab)));
            && fetched.response == Some(Settings(TabState(s.gain, s.enabled)))
            && Popup.RestoreState(JNumber(tab), Some(ResponseAsPartial(fetched.response.value.state)))
               == s.(eq := Table(Default), preset := Named(Default))
  {
    var restored := Popup.CreateState(ResponseAsPartial(TabState(s.gain, s.enabled)));
    assert restored.eq.Get(Low) == 0 && restored.eq.Get(Mid) == 0 && restored.eq.Get(High) == 0;
    assert restored.eq == Table(Default);
  }
}
