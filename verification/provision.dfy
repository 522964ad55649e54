/** `sendBDsToNewChannels` (bot.go:282-357): for each channel-tier member, a
    private channel named after them, the main channel invited to it, the
    announcement posted there and the post remembered in the channel cache. */
module Provision {
  import opened Wrappers
  import opened Structs
  import opened SlackStructs
  import opened Strings
  import opened Cache
  import opened SlackApi
  import opened Filter

  /** `errorMsgNameTaken`: the error text that means the channel exists already. */
  const NameTaken: string := "API error: name_taken"

  /** The channel name: `surname-bd-year` with every `.` removed. */
  function ChannelName(surname: string, year: int): (name: string)
    ensures '.' !in name
  {
    RemoveAll(surname + "-bd-" + Itoa(year), '.')
  }

  /** Only the surname can lose characters: the year and the `-bd-` part are kept. */
  lemma ChannelNameParts(surname: string, year: int)
    ensures ChannelName(surname, year) == RemoveAll(surname, '.') + "-bd-" + Itoa(year)
  {
    var digits := Itoa(year);
    assert '.' !in "-bd-";
    var suffix := "-bd-" + digits;
    assert '.' !in suffix;
    assert surname + "-bd-" + digits == surname + suffix;
    RemoveAllAppend(surname, suffix, '.');
  }

  /** `DD.MM.YYYY` from the cached token `DDMM` + year. */
  function BirthdayDate(token: string): (date: string)
    requires |token| >= 4
    ensures |date| == |token| + 2
    ensures date[2] == '.' && date[5] == '.'
    ensures date[..2] + date[3..5] + date[6..] == token
  {
    var date := token[..2] + "." + token[2..4] + "." + token[4..];
    assert date[..2] == token[..2] && date[3..5] == token[2..4] && date[6..] == token[4..];
    assert token[..2] + token[2..4] + token[4..] == token;
    date
  }

  /** `convs[i]` is the first conversation called exactly `name`. */
  predicate FirstNamed(convs: seq<Conversation>, name: string, i: int) {
    0 <= i < |convs| && convs[i].name == name && forall j :: 0 <= j < i ==> convs[j].name != name
  }

  /** The ID of the first conversation called exactly `name`, or `""`. */
  function FirstNamedID(convs: seq<Conversation>, name: string): (id: string)
    ensures (forall i :: 0 <= i < |convs| ==> convs[i].name != name) ==> id == ""
    ensures forall i :: FirstNamed(convs, name, i) ==> id == convs[i].id
  {
    if convs == [] then ""
    else if convs[0].name == name then convs[0].id
    else
      var rest := FirstNamedID(convs[1..], name);
      assert forall i :: FirstNamed(convs, name, i) ==> FirstNamed(convs[1..], name, i - 1);
      rest
  }

  /** The lookup loop after `name_taken` (bot.go:305-310). */
  method FindChannelByName(convs: seq<Conversation>, name: string) returns (id: string)
    ensures id == FirstNamedID(convs, name)
  {
    id := "";
    var i := 0;
    while i < |convs|
      invariant 0 <= i <= |convs|
      invariant FirstNamedID(convs, name) == FirstNamedID(convs[i..], name)
    {
      if convs[i].name == name {
        id := convs[i].id;
        return;
      }
      assert convs[i..][1..] == convs[i + 1..];
      i := i + 1;
    }
  }

  function NotFound(name: string): string {
    "channel with name " + name + " not found"
  }

  /** The channel to announce in (bot.go:289-313). */
  function ChannelID(api: Platform, name: string): (r: Result<string>)
    ensures r.Ok? ==> r.value != ""
    ensures api.create(name).Decoded? && api.create(name).ok
            ==> r == if api.create(name).body.id == "" then Err(NotFound(name)) else Ok(api.create(name).body.id)
    ensures r.Ok? && !(api.create(name).Decoded? && api.create(name).ok)
            ==> api.create(name).Decoded? && api.create(name).error == "name_taken"
                && GetConversations(api).Ok? && r.value == FirstNamedID(GetConversations(api).value, name)
  {
    match CreateNewConversation(api, name)
    case Ok(id) => if id == "" then Err(NotFound(name)) else Ok(id)
    case Err(e) =>
      if e != NameTaken then Err("unable to create channel with name " + name + ": " + e)
      else
        ApiErrorText("GET", api.create(name), "name_taken");
        match GetConversations(api)
        case Err(e') => Err("unable to get conversations: " + e')
        case Ok(convs) =>
          var id := FirstNamedID(convs, name);
          if id == "" then Err(NotFound(name)) else Ok(id)
  }

  /** When the create fails, a decoded `name_taken` error leads to the lookup:
      its error is passed on, and otherwise the exact-name match, if any, is
      the channel. Any other failure is reported for that name. */
  lemma ChannelIDAfterFailedCreate(api: Platform, name: string)
    ensures var r := ChannelID(api, name);
      var taken := api.create(name).Decoded? && !api.create(name).ok && api.create(name).error == "name_taken";
      && (taken && GetConversations(api).Err? ==> r == Err("unable to get conversations: " + GetConversations(api).error))
      && (taken && GetConversations(api).Ok? ==>
            var id := FirstNamedID(GetConversations(api).value, name);
            r == if id == "" then Err(NotFound(name)) else Ok(id))
      && (CreateNewConversation(api, name).Err? && !taken ==>
            r == Err("unable to create channel with name " + name + ": " + CreateNewConversation(api, name).error))
  {
    var created := CreateNewConversation(api, name);
    ApiErrorText("GET", api.create(name), "name_taken");
    if api.create(name).Decoded? && !api.create(name).ok && api.create(name).error == "name_taken" {
      assert created == Err(NameTaken);
    } else if created.Err? {
      assert created.error != NameTaken;
    }
  }

  /** The create-or-look-up step, with the lookup as a loop. */
  method ResolveChannel(api: Platform, name: string) returns (r: Result<string>)
    ensures r == ChannelID(api, name)
  {
    var chanID := "";
    var created := CreateNewConversation(api, name);
    if created.Err? {
      if created.error != NameTaken {
        return Err("unable to create channel with name " + name + ": " + created.error);
      }
      var convs := GetConversations(api);
      if convs.Err? {
        return Err("unable to get conversations: " + convs.error);
      }
      chanID := FindChannelByName(convs.value, name);
    } else {
      chanID := created.value;
    }
    if chanID == "" {
      return Err(NotFound(name));
    }
    return Ok(chanID);
  }

  /** The announcement posted in the honoree's channel. */
  function AnnounceText(announce: string, c: Config, id: string, info: BdInfo): MessageText
    requires |info.birthday| >= 4
  {
    Formatted(announce, [Str(id), Str(info.realName), Str(BirthdayDate(info.birthday)), Str(c.managerID)])
  }

  /** What one iteration of the loop returns; the cache save at its end
      cannot change it. */
  function ChannelStep(api: Platform, c: Config, announce: string, id: string, info: BdInfo, year: int): Outcome
    requires |info.birthday| >= 4
  {
    var name := ChannelName(info.surname, year);
    match ChannelID(api, name)
    case Err(e) => Fail(e)
    case Ok(chanID) =>
      match GetConversationMembers(api, c.mainChannelID)
      case Err(e) => Fail("unable to get main channel members: " + e)
      case Ok(members) =>
        match InviteAll(api, chanID, InviteCandidates(members, c.blacklist, c.managerID, id))
        case Fail(e) => Fail("unable to invite members to channel " + name + ": " + e)
        case Pass =>
          match SendAPIMessage(api, chanID, AnnounceText(announce, c, id, info))
          case Fail(e) => Fail("unable to send message to channel with ID " + chanID + ": " + e)
          case Pass => Pass
  }

  /** An iteration succeeds exactly when the channel was found or made, the
      main channel's roster was read, every invite candidate was invited and
      the announcement was posted there. */
  lemma ChannelStepPasses(api: Platform, c: Config, announce: string, id: string, info: BdInfo, year: int)
    requires |info.birthday| >= 4
    ensures ChannelStep(api, c, announce, id, info, year).Pass? <==>
      && ChannelID(api, ChannelName(info.surname, year)).Ok?
      && GetConversationMembers(api, c.mainChannelID).Ok?
      && InviteAll(api, ChannelID(api, ChannelName(info.surname, year)).value,
                   InviteCandidates(GetConversationMembers(api, c.mainChannelID).value, c.blacklist, c.managerID, id)).Pass?
      && SendAPIMessage(api, ChannelID(api, ChannelName(info.surname, year)).value, AnnounceText(announce, c, id, info)).Pass?
  {
  }

  /** A failed iteration names its cause: the channel, the roster, the invite
      (naming the channel) or the post (naming the channel ID). */
  lemma ChannelStepErrors(api: Platform, c: Config, announce: string, id: string, info: BdInfo, year: int)
    requires |info.birthday| >= 4
    ensures var o := ChannelStep(api, c, announce, id, info, year);
            var name := ChannelName(info.surname, year);
            o.Fail? ==>
              || (ChannelID(api, name).Err? && o.error == ChannelID(api, name).error)
              || HasPrefix(o.error, "unable to get main channel members: ")
              || HasPrefix(o.error, "unable to invite members to channel " + name + ": ")
              || HasPrefix(o.error, "unable to send message to channel with ID ")
  {
    var name := ChannelName(info.surname, year);
    match ChannelID(api, name)
    case Err(e) =>
    case Ok(chanID) =>
      match GetConversationMembers(api, c.mainChannelID)
      case Err(e) => PrefixOfAppend("unable to get main channel members: ", e);
      case Ok(members) =>
        match InviteAll(api, chanID, InviteCandidates(members, c.blacklist, c.managerID, id))
        case Fail(e) => PrefixOfAppend("unable to invite members to channel " + name + ": ", e);
        case Pass =>
          match SendAPIMessage(api, chanID, AnnounceText(announce, c, id, info))
          case Fail(e) =>
            var head := "unable to send message to channel with ID ";
            AppendAssociates(head, chanID, ": " + e);
            PrefixOfAppend(head, chanID + (": " + e));
          case Pass =>
  }

  /** One iteration of the loop: the honoree is saved in the channel cache
      only after the announcement has been posted, and a failed save is only
      logged. */
  method AnnounceInChannel(db: DB, api: Platform, c: Config, announce: string, id: string, info: BdInfo, year: int)
    returns (err: Outcome)
    requires |info.birthday| >= 4
    modifies db
    ensures err == ChannelStep(api, c, announce, id, info, year)
    ensures db.buckets == if err.Pass?
                          then Saved(old(db.buckets), db.managerBucketName, db.channelBucketName, db.channelBucketName, id, info.birthday)
                          else old(db.buckets)
  {
    var chanName := ChannelName(info.surname, year);
    var chanID := ResolveChannel(api, chanName);
    if chanID.Err? {
      return Fail(chanID.error);
    }
    var members := GetConversationMembers(api, c.mainChannelID);
    if members.Err? {
      return Fail("unable to get main channel members: " + members.error);
    }
    var invited := RemoveNotInvited(members.value, c.blacklist, c.managerID, id);
    var requested;
    err, requested := InviteMembersToConversation(api, chanID.value, invited);
    if err.Fail? {
      return Fail("unable to invite members to channel " + chanName + ": " + err.error);
    }
    err := SendAPIMessage(api, chanID.value, AnnounceText(announce, c, id, info));
    if err.Fail? {
      return Fail("unable to send message to channel with ID " + chanID.value + ": " + err.error);
    }
    var saveErr := db.SaveUserBDToCache(db.channelBucketName, id, info.birthday);
    return Pass;
  }

  /** The tokens of the honorees in `ids`. */
  function Tokens(infos: map<string, BdInfo>, ids: set<string>): map<string, string> {
    map id | id in ids && id in infos :: infos[id].birthday
  }

  lemma TokensStep(infos: map<string, BdInfo>, ids: set<string>, id: string)
    requires id in infos
    ensures Tokens(infos, ids)[id := infos[id].birthday] == Tokens(infos, ids + {id})
  {
  }

  /** Every honoree in `ids` had their iteration succeed. */
  predicate AllAnnounced(api: Platform, c: Config, announce: string, infos: map<string, BdInfo>, year: int, ids: set<string>) {
    forall id {:trigger ChannelStep(api, c, announce, id, infos[id], year)} :: id in ids && id in infos ==>
      |infos[id].birthday| >= 4 && ChannelStep(api, c, announce, id, infos[id], year).Pass?
  }

  lemma AllAnnouncedStep(api: Platform, c: Config, announce: string, infos: map<string, BdInfo>, year: int,
                         ids: set<string>, id: string)
    requires AllAnnounced(api, c, announce, infos, year, ids)
    requires id in infos && |infos[id].birthday| >= 4 && ChannelStep(api, c, announce, id, infos[id], year).Pass?
    ensures AllAnnounced(api, c, announce, infos, year, ids + {id})
  {
  }

  /** `sendBDsToNewChannels`: the honorees are taken in map order (any order)
      and the first failure ends the loop. `announced` are the honorees whose
      channel got its announcement before that; `failed` is the honoree whose
      iteration failed, if one did. */
  method SendBDsToNewChannels(db: DB, api: Platform, c: Config, announce: string, infos: map<string, BdInfo>, year: int)
    returns (err: Outcome, ghost announced: set<string>, ghost failed: string)
    requires forall id :: id in infos ==> |infos[id].birthday| >= 4
    modifies db
    ensures announced <= infos.Keys
    ensures AllAnnounced(api, c, announce, infos, year, announced)
    ensures db.buckets == SavedEach(old(db.buckets), db.managerBucketName, db.channelBucketName, db.channelBucketName,
                                    Tokens(infos, announced))
    ensures err.Pass? ==> announced == infos.Keys
    ensures err.Fail? ==> failed in infos && failed !in announced && ChannelStep(api, c, announce, failed, infos[failed], year) == err
  {
    announced, failed := {}, "";
    ghost var start := db.buckets;
    SavedNothing(db.buckets, db.managerBucketName, db.channelBucketName, db.channelBucketName);
    assert Tokens(infos, {}) == map[];
    var pending := infos.Keys;
    while pending != {}
      invariant announced !! pending && announced + pending == infos.Keys
      invariant AllAnnounced(api, c, announce, infos, year, announced)
      invariant db.buckets == SavedEach(start, db.managerBucketName, db.channelBucketName, db.channelBucketName,
                                        Tokens(infos, announced))
      decreases pending
    {
      var id :| id in pending;
      pending := pending - {id};
      TokensStep(infos, announced, id);
      SavedEachStep(start, db.managerBucketName, db.channelBucketName, db.channelBucketName,
                    Tokens(infos, announced), id, infos[id].birthday);
      err := AnnounceInChannel(db, api, c, announce, id, infos[id], year);
      if err.Fail? {
        failed := id;
        return;
      }
      AllAnnouncedStep(api, c, announce, infos, year, announced, id);
      announced := announced + {id};
    }
    err := Pass;
  }
}
