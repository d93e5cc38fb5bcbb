/**
  The order in which each public GuildService operation issues its calls to
  its collaborators (session authority, persistence layer, chat platform), as
  an abstract trace of steps. What the collaborators do is not modelled; only
  which calls are issued and in what order. The webhook listing and the
  deletions are queued on the platform client, so a DeleteMatching step is
  the point where deletion is requested; it may take effect after later steps.
 */
module EffectOrder {
  import Recordings

  /** What a persistence or platform step acts on. */
  datatype Resource =
    | LogHook | WelcomeHook | RedditHook | Invites | CommandStats | ChatRewards | VoiceRewards | RecordingRow

  datatype Step =
    | AuthorizeGuild(flags: seq<bool>)  // retrieveGuild(session, guild, flags...), which fails for an unauthorized session
    | AuthorizeSession                  // retrieveSession(session)
    | ListAccessibleGuilds              // retrieveGuilds(session, false)
    | ResolveChannel                    // guild.getChannelById(StandardGuildMessageChannel, channelId)
    | CreateWebhook(name: string)       // channel.createWebhook(name).complete()
    | ListPlatformWebhooks              // guild.retrieveWebhooks()
    | DeleteMatching(res: Resource)     // queues delete() on each platform webhook selected for res
    | Read(res: Resource)
    | Persist(res: Resource)            // updateEntity, add*LevelReward
    | Remove(res: Resource)             // removeRedditWebhook, remove*LevelReward, deleteEntity

  datatype Operation =
    | GetStats | GetCommandStats | GetInviteCount
    | GetLogChannel | UpdateLogChannel | RemoveLogChannel
    | GetWelcomeChannel | UpdateWelcomeChannel | RemoveWelcomeChannel
    | GetRedditNotifier | AddRedditNotifier(subreddit: string) | RemoveRedditNotifier
    | GetChatAutoRoles | AddChatAutoRole | RemoveChatAutoRole
    | GetVoiceAutoRoles | AddVoiceAutoRole | RemoveVoiceAutoRole
    | GetRecording
  {
    predicate IsQuery()
    {
      || GetStats? || GetCommandStats? || GetInviteCount? || GetLogChannel? || GetWelcomeChannel?
      || GetRedditNotifier? || GetChatAutoRoles? || GetVoiceAutoRoles?
    }
  }

  /** What the persistence layer holds when the operation runs, where it changes which steps happen. */
  datatype Env = Env(logStored: bool, welcomeStored: bool, redditRecords: nat, recording: Recordings.Outcome)

  predicate IsAuthorization(s: Step)
  {
    s.AuthorizeGuild? || s.AuthorizeSession?
  }

  predicate IsMutation(s: Step)
  {
    s.CreateWebhook? || s.DeleteMatching? || s.Persist? || s.Remove?
  }

  predicate ActsOn(s: Step, res: Resource)
  {
    (s.Read? || s.DeleteMatching? || s.Persist? || s.Remove?) && s.res == res
  }

  predicate AuthorizesFirst(t: seq<Step>)
  {
    |t| > 0 && IsAuthorization(t[0])
  }

  /** Every occurrence of `a` in `t` comes before every occurrence of `b`, and both occur. */
  predicate Before(t: seq<Step>, a: Step, b: Step)
  {
    && a in t && b in t
    && forall i, j :: 0 <= i < |t| && 0 <= j < |t| && t[i] == a && t[j] == b ==> i < j
  }

  /** deleteLogChannel / deleteWelcomeChannel: read the record, and only if there is one list and delete. */
  function DeleteSteps(res: Resource, stored: bool): seq<Step>
  {
    [Read(res)] + (if stored then [ListPlatformWebhooks, DeleteMatching(res)] else [])
  }

  /**
    The steps of each operation, in the order the source issues them. Every
    operation but removeRedditNotifier begins with an authorization, and none
    authorizes after its first step.
   */
  function TraceAsWritten(op: Operation, env: Env): (t: seq<Step>)
    ensures AuthorizesFirst(t) <==> !op.RemoveRedditNotifier?
    ensures forall i :: 1 <= i < |t| ==> !IsAuthorization(t[i])
  {
    match op
    case GetStats => [AuthorizeGuild([]), Read(Invites), Read(CommandStats)]
    case GetCommandStats => [AuthorizeGuild([]), Read(CommandStats)]
    case GetInviteCount => [AuthorizeGuild([]), Read(Invites)]
    case GetLogChannel => [AuthorizeGuild([true]), Read(LogHook)]
    case UpdateLogChannel =>
      [AuthorizeGuild([]), ResolveChannel, CreateWebhook("Ree6-Log")]
      + DeleteSteps(LogHook, env.logStored) + [Persist(LogHook)]
    case RemoveLogChannel => [AuthorizeGuild([])] + DeleteSteps(WelcomeHook, env.welcomeStored)
    case GetWelcomeChannel => [AuthorizeGuild([true]), Read(WelcomeHook)]
    case UpdateWelcomeChannel =>
      [AuthorizeGuild([]), ResolveChannel] + DeleteSteps(WelcomeHook, env.welcomeStored)
      + [CreateWebhook("Ree6-Welcome"), Persist(WelcomeHook)]
    case RemoveWelcomeChannel => [AuthorizeGuild([])] + DeleteSteps(WelcomeHook, env.welcomeStored)
    case GetRedditNotifier =>
      [AuthorizeGuild([true]), Read(RedditHook)] + seq(env.redditRecords, _ => ListPlatformWebhooks)
    case AddRedditNotifier(subreddit) =>
      [AuthorizeGuild([true]), ResolveChannel, CreateWebhook("Ree6-RedditNotifier-" + subreddit), Persist(RedditHook)]
    case RemoveRedditNotifier => [Remove(RedditHook)]
    case GetChatAutoRoles => [AuthorizeGuild([false, true]), Read(ChatRewards)]
    case AddChatAutoRole => [AuthorizeGuild([false, false]), Persist(ChatRewards)]
    case RemoveChatAutoRole => [AuthorizeGuild([false, false]), Remove(ChatRewards)]
    case GetVoiceAutoRoles => [AuthorizeGuild([false, true]), Read(VoiceRewards)]
    case AddVoiceAutoRole => [AuthorizeGuild([false, false]), Persist(VoiceRewards)]
    case RemoveVoiceAutoRole => [AuthorizeGuild([false, false]), Remove(VoiceRewards)]
    case GetRecording =>
      [AuthorizeSession, ListAccessibleGuilds, Read(RecordingRow)]
      + (if env.recording.Ok? then [Remove(RecordingRow)] else [])
  }

  /**
    The evidently intended traces: removeLogChannel deletes the log webhook,
    and removeRedditNotifier authorizes its caller first.
   */
  function Trace(op: Operation, env: Env): (t: seq<Step>)
    ensures AuthorizesFirst(t)
    ensures !op.RemoveLogChannel? && !op.RemoveRedditNotifier? ==> t == TraceAsWritten(op, env)
  {
    match op
    case RemoveLogChannel => [AuthorizeGuild([])] + DeleteSteps(LogHook, env.logStored)
    case RemoveRedditNotifier => [AuthorizeGuild([]), Remove(RedditHook)]
    case _ => TraceAsWritten(op, env)
  }

  /**
    updateLogChannel creates the new webhook (a blocking call) before it
    requests deletion of the old one, and issues the persist call last.
   */
  lemma UpdateLogCreatesBeforeDeleting(env: Env)
    requires env.logStored
    ensures var t := TraceAsWritten(UpdateLogChannel, env);
            && Before(t, CreateWebhook("Ree6-Log"), DeleteMatching(LogHook))
            && t[|t| - 1] == Persist(LogHook)
  {
    var t := TraceAsWritten(UpdateLogChannel, env);
    assert t == [AuthorizeGuild([]), ResolveChannel, CreateWebhook("Ree6-Log"), Read(LogHook),
                 ListPlatformWebhooks, DeleteMatching(LogHook), Persist(LogHook)];
    assert t[2] == CreateWebhook("Ree6-Log") && t[5] == DeleteMatching(LogHook);
  }

  /**
    updateWelcomeChannel requests deletion of the old webhook before it
    creates the new one, and issues the persist call last.
   */
  lemma UpdateWelcomeDeletesBeforeCreating(env: Env)
    requires env.welcomeStored
    ensures var t := TraceAsWritten(UpdateWelcomeChannel, env);
            && Before(t, DeleteMatching(WelcomeHook), CreateWebhook("Ree6-Welcome"))
            && t[|t| - 1] == Persist(WelcomeHook)
  {
    var t := TraceAsWritten(UpdateWelcomeChannel, env);
    assert t == [AuthorizeGuild([]), ResolveChannel, Read(WelcomeHook), ListPlatformWebhooks,
                 DeleteMatching(WelcomeHook), CreateWebhook("Ree6-Welcome"), Persist(WelcomeHook)];
    assert t[4] == DeleteMatching(WelcomeHook) && t[5] == CreateWebhook("Ree6-Welcome");
  }

  /**
    Without its own stored record an update neither lists nor deletes platform
    webhooks; the other kind's record plays no part.
   */
  lemma UpdateWithoutRecordDeletesNothing(env: Env)
    ensures !env.logStored ==> ListPlatformWebhooks !in TraceAsWritten(UpdateLogChannel, env)
    ensures !env.logStored ==> forall s :: s in TraceAsWritten(UpdateLogChannel, env) ==> !s.DeleteMatching?
    ensures !env.welcomeStored ==> ListPlatformWebhooks !in TraceAsWritten(UpdateWelcomeChannel, env)
    ensures !env.welcomeStored ==> forall s :: s in TraceAsWritten(UpdateWelcomeChannel, env) ==> !s.DeleteMatching?
  {
  }

  /** removeLogChannel as written never reads or deletes anything of the log webhook. */
  lemma RemoveLogChannelNeverTouchesLogHook(env: Env)
    ensures forall s :: s in TraceAsWritten(RemoveLogChannel, env) ==> !ActsOn(s, LogHook)
    ensures env.welcomeStored ==> DeleteMatching(WelcomeHook) in TraceAsWritten(RemoveLogChannel, env)
  {
  }

  /** As intended, removeLogChannel deletes the log webhook when one is stored, and nothing of the welcome one. */
  lemma IntendedRemoveLogChannelDeletesLogHook(env: Env)
    ensures env.logStored ==> DeleteMatching(LogHook) in Trace(RemoveLogChannel, env)
    ensures forall s :: s in Trace(RemoveLogChannel, env) ==> !ActsOn(s, WelcomeHook)
  {
    if env.logStored {
      assert Trace(RemoveLogChannel, env)[3] == DeleteMatching(LogHook);
    }
  }

  /** removeRedditNotifier as written removes the record with no authorization step at all. */
  lemma RemoveRedditNotifierSkipsAuthorization(env: Env)
    ensures forall s :: s in TraceAsWritten(RemoveRedditNotifier, env) ==> !IsAuthorization(s)
    ensures Remove(RedditHook) in TraceAsWritten(RemoveRedditNotifier, env)
  {
  }

  /** It is the only operation that does. */
  lemma OtherOperationsAuthorizeFirst(op: Operation, env: Env)
    requires !op.RemoveRedditNotifier?
    ensures AuthorizesFirst(TraceAsWritten(op, env))
  {
  }

  /** As intended, every operation authorizes before anything else, and nothing after that. */
  lemma EveryOperationAuthorizesFirst(op: Operation, env: Env)
    ensures AuthorizesFirst(Trace(op, env))
    ensures forall i :: 1 <= i < |Trace(op, env)| ==> !IsAuthorization(Trace(op, env)[i])
  {
    var t := Trace(op, env);
    if op.GetRedditNotifier? {
      forall i | 1 <= i < |t| ensures !IsAuthorization(t[i]) {
        if i >= 2 {
          assert t[i] == seq(env.redditRecords, _ => ListPlatformWebhooks)[i - 2];
        }
      }
    }
  }

  /** Removing a reddit notifier never deletes its platform webhook, as written or as intended. */
  lemma RemoveRedditNotifierOrphansPlatformWebhook(env: Env)
    ensures forall s :: s in TraceAsWritten(RemoveRedditNotifier, env) + Trace(RemoveRedditNotifier, env) ==> !s.DeleteMatching? && !s.CreateWebhook?
  {
  }

  /** The getters change nothing. */
  lemma QueriesMutateNothing(op: Operation, env: Env)
    requires op.IsQuery()
    ensures forall s :: s in TraceAsWritten(op, env) ==> !IsMutation(s)
  {
    if op.GetRedditNotifier? {
      var t := TraceAsWritten(op, env);
      forall s | s in t ensures !IsMutation(s) {
        var i :| 0 <= i < |t| && t[i] == s;
        if i >= 2 {
          assert t[i] == seq(env.redditRecords, _ => ListPlatformWebhooks)[i - 2];
        }
      }
    }
  }

  /** getRecording deletes the row exactly when it hands the recording back, as its last step. */
  lemma RecordingRemovedOnlyOnSuccess(env: Env)
    ensures Remove(RecordingRow) in TraceAsWritten(GetRecording, env) <==> env.recording.Ok?
    ensures env.recording.Ok? ==> TraceAsWritten(GetRecording, env)[3] == Remove(RecordingRow)
  {
  }
}
