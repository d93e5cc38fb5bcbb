/**
  Retrieve-and-consume of a stored voice recording (GuildService#getRecording).

  The caller's session is resolved elsewhere; here it is given as the list of
  guild ids the session can access and the session user's id. The recording
  table of the persistence layer is a map from recording id to recording, and
  the recording's JSON participant array is taken as already parsed.
 */
module Recordings {
  import opened Wrappers
  import opened CaseFold

  /** One element of the participant JSON array, as the scan distinguishes them. */
  datatype JsonElement =
    | JsonString(text: string)   // a primitive holding a string
    | JsonOtherPrimitive         // a number or boolean primitive
    | JsonNonPrimitive           // an array, an object or JSON null

  datatype Recording = Recording(id: string, guildId: string, participants: seq<JsonElement>)

  /** How a call of getRecording ends. */
  datatype Outcome =
    | Ok(recording: Recording)   // the recording, handed back after it was deleted
    | NotInGuild                 // "You were not part of the Guild this recording was made in!"
    | NotInRecording             // "You were not part of this recording."
    | RecordingMissing           // no row with that id, and the guild check dereferenced it

  predicate IsJsonPrimitive(e: JsonElement)
  {
    e.JsonString? || e.JsonOtherPrimitive?
  }

  /** An element names the user when it is a string primitive equal to the user id ignoring case. */
  predicate NamesUser(e: JsonElement, userId: string)
  {
    e.JsonString? && EqualsIgnoreCase(e.text, userId)
  }

  predicate WasParticipant(participants: seq<JsonElement>, userId: string)
  {
    exists i :: 0 <= i < |participants| && NamesUser(participants[i], userId)
  }

  /** The stream `anyMatch` over the accessible guilds. */
  function GuildMatches(guilds: seq<string>, guildId: string): (r: bool)
    ensures r <==> exists i :: 0 <= i < |guilds| && EqualsIgnoreCase(guilds[i], guildId)
  {
    if guilds == [] then false
    else EqualsIgnoreCase(guilds[0], guildId) || GuildMatches(guilds[1..], guildId)
  }

  function Find(rows: map<string, Recording>, id: string): Option<Recording>
  {
    if id in rows then Some(rows[id]) else None
  }

  /**
    The decision getRecording takes on the row it fetched. When the row is
    missing, `anyMatch` throws on the first guild it tests, because the
    predicate dereferences the recording; with no guilds to test it answers
    false and the guild failure is raised instead.
   */
  function Decide(guilds: seq<string>, userId: string, fetched: Option<Recording>): (o: Outcome)
    ensures o.Ok? ==> fetched == Some(o.recording)
    ensures o == RecordingMissing ==> fetched.None? && |guilds| > 0
    ensures o == NotInRecording ==> fetched.Some?
  {
    match fetched
    case None => if |guilds| == 0 then NotInGuild else RecordingMissing
    case Some(rec) =>
      if !GuildMatches(guilds, rec.guildId) then NotInGuild
      else if WasParticipant(rec.participants, userId) then Ok(rec)
      else NotInRecording
  }

  /** The `for` loop over the participant array, with its `found` flag and `break`. */
  method ScanParticipants(participants: seq<JsonElement>, userId: string) returns (found: bool)
    ensures found <==> WasParticipant(participants, userId)
  {
    found := false;
    var i := 0;
    while i < |participants|
      invariant 0 <= i <= |participants|
      invariant forall k :: 0 <= k < i ==> !NamesUser(participants[k], userId)
    {
      var element := participants[i];
      if IsJsonPrimitive(element) {
        if element.JsonString? && EqualsIgnoreCase(element.text, userId) {
          found := true;
          break;
        }
      }
      i := i + 1;
    }
  }

  /** The persistence layer's recording table. */
  class RecordingTable {
    var rows: map<string, Recording>

    /** Every row is stored under its own id. */
    ghost predicate Valid()
      reads this
    {
      forall id :: id in rows ==> rows[id].id == id
    }

    constructor (initial: map<string, Recording>)
      requires forall id :: id in initial ==> initial[id].id == id
      ensures Valid() && rows == initial
    {
      rows := initial;
    }

    /**
      GuildService#getRecording: the outcome is the decision on the fetched
      row, and the row is deleted exactly when the recording is handed back.
     */
    method GetRecording(guilds: seq<string>, userId: string, recordId: string) returns (o: Outcome)
      requires Valid()
      modifies this
      ensures Valid()
      ensures o == Decide(guilds, userId, Find(old(rows), recordId))
      ensures rows == if o.Ok? then old(rows) - {recordId} else old(rows)
    {
      var fetched := Find(rows, recordId);
      if fetched.None? {
        if |guilds| == 0 {
          return NotInGuild;
        }
        return RecordingMissing;
      }
      var recording := fetched.value;
      if !GuildMatches(guilds, recording.guildId) {
        return NotInGuild;
      }
      var found := ScanParticipants(recording.participants, userId);
      if found {
        rows := rows - {recording.id};
        return Ok(recording);
      } else {
        return NotInRecording;
      }
    }
  }

  /** A call returns the recording exactly when a guild and a participant entry both match. */
  lemma OkIffGuildAndParticipantMatch(guilds: seq<string>, userId: string, fetched: Option<Recording>)
    ensures Decide(guilds, userId, fetched).Ok?
        <==> fetched.Some?
             && (exists i :: 0 <= i < |guilds| && EqualsIgnoreCase(guilds[i], fetched.value.guildId))
             && (exists j :: 0 <= j < |fetched.value.participants|
                               && fetched.value.participants[j].JsonString?
                               && EqualsIgnoreCase(fetched.value.participants[j].text, userId))
    ensures Decide(guilds, userId, fetched).Ok? ==> Decide(guilds, userId, fetched).recording == fetched.value
  {
  }

  /**
    Without a matching guild the outcome is the guild failure whatever the
    participant array holds: the array is not consulted.
   */
  lemma GuildCheckedBeforeParticipants(guilds: seq<string>, userId: string, rec: Recording, other: seq<JsonElement>)
    requires !GuildMatches(guilds, rec.guildId)
    ensures Decide(guilds, userId, Some(rec)) == NotInGuild
    ensures Decide(guilds, userId, Some(rec.(participants := other))) == NotInGuild
  {
  }

  /** The participant failure happens exactly when the guild matches and no entry names the user. */
  lemma NotInRecordingIff(guilds: seq<string>, userId: string, rec: Recording)
    ensures Decide(guilds, userId, Some(rec)) == NotInRecording
        <==> GuildMatches(guilds, rec.guildId) && !WasParticipant(rec.participants, userId)
  {
  }

  /** The participant array with every element that is not a string primitive dropped. */
  function StringsOnly(participants: seq<JsonElement>): (r: seq<JsonElement>)
    ensures forall e :: e in r ==> e.JsonString? && e in participants
    ensures forall e :: e in participants && e.JsonString? ==> e in r
  {
    if participants == [] then []
    else if participants[0].JsonString? then [participants[0]] + StringsOnly(participants[1..])
    else StringsOnly(participants[1..])
  }

  /** Elements that are not string primitives never decide whether the user took part. */
  lemma NonStringsNeverCount(participants: seq<JsonElement>, userId: string)
    ensures WasParticipant(participants, userId) <==> WasParticipant(StringsOnly(participants), userId)
  {
    var strings := StringsOnly(participants);
    if WasParticipant(participants, userId) {
      var i :| 0 <= i < |participants| && NamesUser(participants[i], userId);
      assert participants[i] in strings;
      var j :| 0 <= j < |strings| && strings[j] == participants[i];
      assert NamesUser(strings[j], userId);
    }
    if WasParticipant(strings, userId) {
      var j :| 0 <= j < |strings| && NamesUser(strings[j], userId);
      assert strings[j] in participants;
      var i :| 0 <= i < |participants| && participants[i] == strings[j];
      assert NamesUser(participants[i], userId);
    }
  }

  /**
    Hence dropping the non-string elements never changes a decision: the
    same failure, or success on both (each handing back its own recording).
   */
  lemma NonStringsNeverChangeDecision(guilds: seq<string>, userId: string, rec: Recording)
    ensures var stripped := rec.(participants := StringsOnly(rec.participants));
            && Decide(guilds, userId, Some(rec)).Ok? == Decide(guilds, userId, Some(stripped)).Ok?
            && (!Decide(guilds, userId, Some(rec)).Ok? ==> Decide(guilds, userId, Some(rec)) == Decide(guilds, userId, Some(stripped)))
  {
    NonStringsNeverCount(rec.participants, userId);
  }

  /** The user id is compared ignoring case: ids that differ only in case get the same decision. */
  lemma UserIdCaseInsensitive(guilds: seq<string>, userId: string, userId': string, fetched: Option<Recording>)
    requires EqualsIgnoreCase(userId, userId')
    ensures Decide(guilds, userId, fetched) == Decide(guilds, userId', fetched)
  {
    if fetched.Some? {
      var ps := fetched.value.participants;
      if WasParticipant(ps, userId) {
        var i :| 0 <= i < |ps| && NamesUser(ps[i], userId);
        EqualsIgnoreCaseTransitive(ps[i].text, userId, userId');
        assert NamesUser(ps[i], userId');
      }
      if WasParticipant(ps, userId') {
        var i :| 0 <= i < |ps| && NamesUser(ps[i], userId');
        EqualsIgnoreCaseSymmetric(userId, userId');
        EqualsIgnoreCaseTransitive(ps[i].text, userId', userId);
        assert NamesUser(ps[i], userId);
      }
    }
  }

  /**
    A call for an id with no row never succeeds, so GetRecording leaves the
    table as it was; it reports the guild failure exactly when the session
    can access no guild.
   */
  lemma MissingRecordingNeverOk(rows: map<string, Recording>, guilds: seq<string>, userId: string, recordId: string)
    requires recordId !in rows
    ensures !Decide(guilds, userId, Find(rows, recordId)).Ok?
    ensures Decide(guilds, userId, Find(rows, recordId)) == NotInGuild <==> guilds == []
  {
  }

  /**
    Retrieval is single use: once a successful call has removed an id from
    the table, no later call for that id, by anyone, gets a recording back.
    This holds for any table.
   */
  lemma ConsumedRecordIsGone(rows: map<string, Recording>, recordId: string,
                             laterGuilds: seq<string>, laterUser: string)
    ensures Find(rows - {recordId}, recordId) == None
    ensures !Decide(laterGuilds, laterUser, Find(rows - {recordId}, recordId)).Ok?
  {
  }

  /**
    Two calls in a row on the same table. When the first succeeds, the row is
    gone and the second call no longer finds it. When the first fails, the
    table is as it was. Either way the second call never succeeds.
   */
  method RetrieveTwice(table: RecordingTable, guilds: seq<string>, userId: string, recordId: string)
      returns (first: Outcome, second: Outcome)
    requires table.Valid()
    modifies table
    ensures table.Valid()
    ensures !second.Ok?
    ensures !first.Ok? ==> table.rows == old(table.rows)
    ensures first.Ok? ==> table.rows == old(table.rows) - {recordId} && second == RecordingMissing
  {
    first := table.GetRecording(guilds, userId, recordId);
    second := table.GetRecording(guilds, userId, recordId);
  }
}
