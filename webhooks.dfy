/**
  The webhook decisions of the log, welcome and reddit-notifier operations.

  A stored webhook record (WebhookLog, WebhookWelcome) keeps the guild id, the
  id of the platform webhook created for it (in the field the persistence
  layer calls channelId) and that webhook's token. The platform's webhook list
  is given as a sequence; a platform webhook may have no token.
 */
module Webhooks {
  import opened Wrappers
  import opened CaseFold

  datatype PlatformWebhook = PlatformWebhook(id: string, token: Option<string>)

  datatype StoredWebhook = StoredWebhook(guildId: string, channelId: string, token: string)

  /** What the persistence layer returns for one guild: its log and its welcome record, either possibly absent. */
  datatype GuildWebhooks = GuildWebhooks(log: Option<StoredWebhook>, welcome: Option<StoredWebhook>)

  /** A platform webhook is the stored one when it has a token and both its id and its token agree ignoring case. */
  predicate Matches(entry: PlatformWebhook, stored: StoredWebhook)
  {
    && entry.token.Some?
    && EqualsIgnoreCase(entry.id, stored.channelId)
    && EqualsIgnoreCase(entry.token.value, stored.token)
  }

  /** `a` is `b` with some elements left out, order kept. */
  predicate IsSubsequence<T(==)>(a: seq<T>, b: seq<T>)
    decreases |b|
  {
    if a == [] then true
    else if b == [] then false
    else if a[0] == b[0] then IsSubsequence(a[1..], b[1..])
    else IsSubsequence(a, b[1..])
  }

  /** First stage of the pipeline: `filter(entry -> entry.getToken() != null)`. */
  function WithToken(listing: seq<PlatformWebhook>): (r: seq<PlatformWebhook>)
    ensures forall e :: e in r ==> e.token.Some? && e in listing
    ensures forall e :: e in listing && e.token.Some? ==> e in r
  {
    if listing == [] then []
    else (if listing[0].token.Some? then [listing[0]] else []) + WithToken(listing[1..])
  }

  /** Second stage: id and token against the record; it calls getToken() on every entry, so the first stage must have run. */
  function SameIdAndToken(entries: seq<PlatformWebhook>, stored: StoredWebhook): (r: seq<PlatformWebhook>)
    requires forall e :: e in entries ==> e.token.Some?
    ensures forall e :: e in r ==> e in entries && Matches(e, stored)
    ensures forall e :: e in entries && Matches(e, stored) ==> e in r
  {
    if entries == [] then []
    else
      var e := entries[0];
      (if EqualsIgnoreCase(e.id, stored.channelId) && EqualsIgnoreCase(e.token.value, stored.token) then [e] else [])
      + SameIdAndToken(entries[1..], stored)
  }

  /**
    deleteLogChannel / deleteWelcomeChannel: the platform webhooks handed to
    `delete()`. Without a stored record the platform list is not even
    retrieved and nothing is deleted.
   */
  function SelectForDeletion(stored: Option<StoredWebhook>, listing: seq<PlatformWebhook>): (r: seq<PlatformWebhook>)
    ensures stored.None? ==> r == []
    ensures forall e :: e in r ==> e in listing && stored.Some? && Matches(e, stored.value)
    ensures forall e :: e in listing && stored.Some? && Matches(e, stored.value) ==> e in r
  {
    match stored
    case None => []
    case Some(w) => SameIdAndToken(WithToken(listing), w)
  }

  /** A reference definition: one filter with the whole predicate. */
  function Keep(listing: seq<PlatformWebhook>, stored: StoredWebhook): (r: seq<PlatformWebhook>)
    ensures forall e :: e in r ==> e in listing && Matches(e, stored)
    ensures forall e :: e in listing && Matches(e, stored) ==> e in r
  {
    if listing == [] then []
    else (if Matches(listing[0], stored) then [listing[0]] else []) + Keep(listing[1..], stored)
  }

  /** The two-stage pipeline is the single filter on the combined predicate. */
  lemma {:induction false} TwoStagesAreOneFilter(listing: seq<PlatformWebhook>, stored: StoredWebhook)
    ensures SameIdAndToken(WithToken(listing), stored) == Keep(listing, stored)
  {
    if listing != [] {
      TwoStagesAreOneFilter(listing[1..], stored);
      var e := listing[0];
      if e.token.Some? {
        assert WithToken(listing) == [e] + WithToken(listing[1..]);
        assert ([e] + WithToken(listing[1..]))[1..] == WithToken(listing[1..]);
      } else {
        assert WithToken(listing) == WithToken(listing[1..]);
      }
    }
  }

  lemma {:induction false} KeepIsSubsequence(listing: seq<PlatformWebhook>, stored: StoredWebhook)
    ensures IsSubsequence(Keep(listing, stored), listing)
  {
    if listing != [] {
      KeepIsSubsequence(listing[1..], stored);
      var kept := Keep(listing, stored);
      if Matches(listing[0], stored) {
        assert kept[0] == listing[0] && kept[1..] == Keep(listing[1..], stored);
      } else {
        assert kept == Keep(listing[1..], stored);
        if kept != [] {
          assert kept[0] in kept;
          assert kept[0] != listing[0];
        }
      }
    }
  }

  /** The webhooks selected for deletion are a subsequence of the retrieved list, in its order. */
  lemma SelectionIsSubsequence(stored: Option<StoredWebhook>, listing: seq<PlatformWebhook>)
    ensures IsSubsequence(SelectForDeletion(stored, listing), listing)
  {
    if stored.Some? {
      TwoStagesAreOneFilter(listing, stored.value);
      KeepIsSubsequence(listing, stored.value);
    }
  }

  /** Platform webhooks without a token are never deleted, whatever their id. */
  lemma TokenlessNeverSelected(stored: Option<StoredWebhook>, listing: seq<PlatformWebhook>, e: PlatformWebhook)
    requires e.token.None?
    ensures e !in SelectForDeletion(stored, listing)
  {
  }

  /** deleteLogChannel: the platform webhooks matching the log record. */
  function DeleteLogChannel(hooks: GuildWebhooks, listing: seq<PlatformWebhook>): (r: seq<PlatformWebhook>)
    ensures forall e :: e in r <==> e in listing && hooks.log.Some? && Matches(e, hooks.log.value)
  {
    SelectForDeletion(hooks.log, listing)
  }

  /** deleteWelcomeChannel: the platform webhooks matching the welcome record. */
  function DeleteWelcomeChannel(hooks: GuildWebhooks, listing: seq<PlatformWebhook>): (r: seq<PlatformWebhook>)
    ensures forall e :: e in r <==> e in listing && hooks.welcome.Some? && Matches(e, hooks.welcome.value)
  {
    SelectForDeletion(hooks.welcome, listing)
  }

  /** removeWelcomeChannel deletes the platform webhooks matching the welcome record. */
  function RemoveWelcomeChannel(hooks: GuildWebhooks, listing: seq<PlatformWebhook>): (r: seq<PlatformWebhook>)
    ensures forall e :: e in r <==> e in listing && hooks.welcome.Some? && Matches(e, hooks.welcome.value)
  {
    DeleteWelcomeChannel(hooks, listing)
  }

  /** removeLogChannel as written: it hands the guild to deleteWelcomeChannel. */
  function RemoveLogChannelAsWritten(hooks: GuildWebhooks, listing: seq<PlatformWebhook>): (r: seq<PlatformWebhook>)
    ensures forall e :: e in r <==> e in listing && hooks.welcome.Some? && Matches(e, hooks.welcome.value)
  {
    DeleteWelcomeChannel(hooks, listing)
  }

  /** removeLogChannel as evidently intended: the log record's webhooks are deleted. */
  function RemoveLogChannel(hooks: GuildWebhooks, listing: seq<PlatformWebhook>): (r: seq<PlatformWebhook>)
    ensures forall e :: e in r <==> e in listing && hooks.log.Some? && Matches(e, hooks.log.value)
  {
    DeleteLogChannel(hooks, listing)
  }

  /**
    As written, removeLogChannel never looks at the log record: it selects
    the same webhooks whatever the log record is, so with a log record and no
    welcome record the log webhook survives.
   */
  lemma RemoveLogChannelIgnoresLogRecord(hooks: GuildWebhooks, listing: seq<PlatformWebhook>, anyLog: Option<StoredWebhook>)
    ensures RemoveLogChannelAsWritten(hooks, listing) == RemoveLogChannelAsWritten(hooks.(log := anyLog), listing)
  {
  }

  lemma RemoveLogChannelKeepsLogWebhook()
    ensures var hook := PlatformWebhook("900", Some("secret"));
            var hooks := GuildWebhooks(Some(StoredWebhook("42", "900", "secret")), None);
            && RemoveLogChannelAsWritten(hooks, [hook]) == []
            && RemoveLogChannel(hooks, [hook]) == [hook]
  {
    var hook := PlatformWebhook("900", Some("secret"));
    var stored := StoredWebhook("42", "900", "secret");
    assert Matches(hook, stored);
    assert hook in RemoveLogChannel(GuildWebhooks(Some(stored), None), [hook]);
  }

  // ---------------------------------------------------------------------------
  // getLogChannel / getWelcomeChannel

  datatype GuildChannel = GuildChannel(id: string, name: string)

  /** ChannelContainer: the no-argument form, or a wrapper around a channel lookup that may have found nothing. */
  datatype ChannelContainer = EmptyChannel | ChannelOf(channel: Option<GuildChannel>)

  /** The stored record's channel id looked up in the guild's preloaded channel table. */
  function ChannelView(stored: Option<StoredWebhook>, channels: map<string, GuildChannel>): (r: ChannelContainer)
    ensures r == EmptyChannel <==> stored.None?
    ensures r.ChannelOf? && r.channel.Some? ==> stored.value.channelId in channels
    ensures stored.Some? && stored.value.channelId in channels ==> r == ChannelOf(Some(channels[stored.value.channelId]))
  {
    match stored
    case None => EmptyChannel
    case Some(w) => ChannelOf(if w.channelId in channels then Some(channels[w.channelId]) else None)
  }

  /** getLogChannel: empty exactly when no log record is stored. */
  function GetLogChannel(hooks: GuildWebhooks, channels: map<string, GuildChannel>): (r: ChannelContainer)
    ensures r == EmptyChannel <==> hooks.log.None?
    ensures hooks.log.Some? && hooks.log.value.channelId in channels ==> r == ChannelOf(Some(channels[hooks.log.value.channelId]))
  {
    ChannelView(hooks.log, channels)
  }

  /** getWelcomeChannel: empty exactly when no welcome record is stored. */
  function GetWelcomeChannel(hooks: GuildWebhooks, channels: map<string, GuildChannel>): (r: ChannelContainer)
    ensures r == EmptyChannel <==> hooks.welcome.None?
    ensures hooks.welcome.Some? && hooks.welcome.value.channelId in channels ==> r == ChannelOf(Some(channels[hooks.welcome.value.channelId]))
  {
    ChannelView(hooks.welcome, channels)
  }

  // ---------------------------------------------------------------------------
  // getRedditNotifier

  /** WebhookReddit: guild, subreddit, message template, and the id and token of the webhook created for it. */
  datatype RedditRecord = RedditRecord(guildId: string, subreddit: string, message: string, webhookId: string, token: string)

  /** NotifierContainer: subreddit name, message, and the platform webhook found for it, if any. */
  datatype Notifier = Notifier(name: string, message: string, channel: Option<PlatformWebhook>)

  /** `filter(c -> c.getId().equals(id)).findFirst()`: a case-sensitive search for the first webhook with that id. */
  function FirstWithId(listing: seq<PlatformWebhook>, id: string): (r: Option<PlatformWebhook>)
    ensures r.None? <==> forall i :: 0 <= i < |listing| ==> listing[i].id != id
    ensures r.Some? ==> exists i :: 0 <= i < |listing| && listing[i] == r.value
                                    && r.value.id == id
                                    && forall k :: 0 <= k < i ==> listing[k].id != id
  {
    if listing == [] then None
    else if listing[0].id == id then Some(listing[0])
    else FirstWithId(listing[1..], id)
  }

  /** getRedditNotifier as written: each record's webhook is looked up by the record's GUILD id. */
  function ListNotifiersAsWritten(records: seq<RedditRecord>, listing: seq<PlatformWebhook>): (r: seq<Notifier>)
    ensures |r| == |records|
    ensures forall i :: 0 <= i < |r| ==> r[i].name == records[i].subreddit && r[i].message == records[i].message
    ensures forall i :: 0 <= i < |r| ==>
              (r[i].channel.Some? <==> exists j :: 0 <= j < |listing| && listing[j].id == records[i].guildId)
    ensures forall i :: 0 <= i < |r| && r[i].channel.Some? ==>
              r[i].channel.value in listing && r[i].channel.value.id == records[i].guildId
  {
    seq(|records|, i requires 0 <= i < |records| =>
      Notifier(records[i].subreddit, records[i].message, FirstWithId(listing, records[i].guildId)))
  }

  /** getRedditNotifier as evidently intended: the lookup uses the id of the webhook stored in the record. */
  function ListNotifiers(records: seq<RedditRecord>, listing: seq<PlatformWebhook>): (r: seq<Notifier>)
    ensures |r| == |records|
    ensures forall i :: 0 <= i < |r| ==> r[i].name == records[i].subreddit && r[i].message == records[i].message
    ensures forall i :: 0 <= i < |r| ==>
              (r[i].channel.Some? <==> exists j :: 0 <= j < |listing| && listing[j].id == records[i].webhookId)
    ensures forall i :: 0 <= i < |r| && r[i].channel.Some? ==>
              r[i].channel.value in listing && r[i].channel.value.id == records[i].webhookId
  {
    seq(|records|, i requires 0 <= i < |records| =>
      Notifier(records[i].subreddit, records[i].message, FirstWithId(listing, records[i].webhookId)))
  }

  /**
    A notifier whose webhook is still on the platform: the intended lookup
    finds it, the lookup as written does not (webhook ids and guild ids differ).
   */
  lemma NotifierLookupByGuildIdMisses()
    ensures var rec := RedditRecord("42", "dafny", "new post", "900", "secret");
            var hook := PlatformWebhook("900", Some("secret"));
            && ListNotifiersAsWritten([rec], [hook])[0].channel == None
            && ListNotifiers([rec], [hook])[0].channel == Some(hook)
  {
    var hook := PlatformWebhook("900", Some("secret"));
    assert [hook][0].id == "900";
  }
}
