/**
 * The global Telegram channel list (telegram_settings.js). The page edits
 * a copy `currentChannels` of `telegramChannels` from the global settings:
 * at most four distinct links can be added, any one removed, and the save
 * button writes the copy back into the settings.
 */
module Telegram {
  import opened Common
  import opened Store

  const MaxChannels := 4

  /** A link that starts with `@` or, ignoring case, `https://t.me/`. */
  predicate LooksLikeChannel(link: string)
  {
    StartsWith(link, "@") || StartsWith(Lower(link), "https://t.me/")
  }

  datatype AddOutcome = Blank | Full | Duplicate | Declined | AddedChannel

  /** The add button's checks, in order, on the trimmed link. */
  function AddCheck(channels: seq<string>, link: string, confirmed: bool): (r: AddOutcome)
    ensures r == Blank <==> link == []
    ensures r == Full <==> link != [] && |channels| >= MaxChannels
    ensures r == Duplicate <==> link != [] && |channels| < MaxChannels && link in channels
    ensures r == Declined <==>
      link != [] && |channels| < MaxChannels && link !in channels && !LooksLikeChannel(link) && !confirmed
    ensures r == AddedChannel <==>
      link != [] && |channels| < MaxChannels && link !in channels && (LooksLikeChannel(link) || confirmed)
  {
    if link == [] then Blank
    else if |channels| >= MaxChannels then Full
    else if link in channels then Duplicate
    else if !LooksLikeChannel(link) && !confirmed then Declined
    else AddedChannel
  }

  /** The channels as loaded: `globalSettings.telegramChannels || []`. */
  function LoadedChannels(s: Settings): seq<string>
  {
    if s.telegramChannels.Some? then s.telegramChannels.value else []
  }

  /** The settings page: the loaded settings object and the channel list being edited. */
  class TelegramPage {
    var settings: Settings
    var channels: seq<string>

    /** `loadSettings` on page load; a missing record is `{}`, a missing list `[]`. */
    constructor (st: Store)
      ensures settings == st.StoredSettings()
      ensures channels == LoadedChannels(settings)
      ensures st.settings.None? ==> channels == []
    {
      settings := st.StoredSettings();
      channels := LoadedChannels(st.StoredSettings());
    }

    /**
     * The add button. Every refusal leaves the list as it is; an accepted
     * link goes at the end.
     */
    method Add(input: string, confirmed: bool) returns (r: AddOutcome)
      modifies this`channels
      ensures r == AddCheck(old(channels), Trim(input), confirmed)
      ensures r != AddedChannel ==> channels == old(channels)
      ensures r == AddedChannel ==> channels == old(channels) + [Trim(input)]
    {
      var link := Trim(input);
      r := AddCheck(channels, link, confirmed);
      if r == AddedChannel {
        channels := channels + [link];
      }
    }

    /** The remove button of the `index`-th rendered channel. */
    method Remove(index: nat, confirmed: bool)
      requires index < |channels|
      modifies this`channels
      ensures !confirmed ==> channels == old(channels)
      ensures confirmed ==> channels == RemoveAt(old(channels), index)
    {
      if confirmed {
        channels := RemoveAt(channels, index);
      }
    }

    /** `saveSettings`: the edited list replaces `telegramChannels`, every other field stays. */
    method Save(st: Store)
      modifies this`settings, st`settings
      ensures settings == old(settings).(telegramChannels := Some(channels))
      ensures st.settings == Some(settings)
    {
      settings := settings.(telegramChannels := Some(channels));
      st.settings := Some(settings);
    }
  }

  /** An accepted add never makes the list longer than four or repeat a link. */
  lemma AddKeepsLimit(channels: seq<string>, link: string, confirmed: bool)
    requires NoDup(channels)
    requires AddCheck(channels, link, confirmed) == AddedChannel
    ensures |channels + [link]| <= MaxChannels
    ensures NoDup(channels + [link])
  {
    forall i, j | 0 <= i < j < |channels + [link]|
      ensures (channels + [link])[i] != (channels + [link])[j]
    {
      assert (channels + [link])[i] == channels[i];
    }
  }

  /** Removing keeps the list free of repetitions and within the limit. */
  lemma RemoveKeepsLimit(channels: seq<string>, index: nat)
    requires index < |channels|
    requires NoDup(channels) && |channels| <= MaxChannels
    ensures NoDup(RemoveAt(channels, index)) && |RemoveAt(channels, index)| < MaxChannels
  {
    var r := RemoveAt(channels, index);
    forall i, j | 0 <= i < j < |r| ensures r[i] != r[j]
    {
      var i' := if i < index then i else i + 1;
      var j' := if j < index then j else j + 1;
      assert r[i] == channels[i'] && r[j] == channels[j'];
    }
  }

  /** What is saved is what the next page load edits; the other settings fields survive. */
  lemma SaveLoadRoundTrip(s: Settings, channels: seq<string>)
    ensures LoadedChannels(s.(telegramChannels := Some(channels))) == channels
    ensures var s' := s.(telegramChannels := Some(channels));
      s'.upiId == s.upiId && s'.minDeposit == s.minDeposit && s'.prices == s.prices &&
      s'.instantPanelPrice == s.instantPanelPrice
  {
  }
}
