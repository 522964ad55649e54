/** The response handling of slack/api.go. Each platform call is an oracle
    that yields the decoded reply; this module gives the calls' meaning:
    the `!ok` convention, profile ID stamping, the DM search and the
    one-member-per-request invitation loop. */
module SlackApi {
  import opened Wrappers
  import opened Structs
  import opened SlackStructs
  import opened Strings

  const AlreadyInChannel: string := "already_in_channel"
  const CantInviteSelf: string := "cant_invite_self"

  /** A reply to one request: none (the request failed, with the cause), an
      answer that does not decode (with the decoder's cause), or the decoded
      `ok`/`error` fields and payload. */
  datatype Reply<T> = NoReply(cause: string) | Garbled(cause: string) | Decoded(ok: bool, error: string, body: T)

  /** One entry of the `errors` array of `conversations.invite`. */
  datatype UserError = UserError(user: string, ok: bool, error: string)

  /** The platform, as the answers it gives. The tokens are not modelled: one
      workspace answers every request. */
  datatype Platform = Platform(
    members: string -> Reply<seq<string>>,              // conversations.members, by channel ID
    profile: string -> Reply<UserProfile>,               // users.profile.get, by user ID
    post: (string, MessageText) -> Reply<()>,           // chat.postMessage, by channel ID and text
    create: string -> Reply<Conversation>,               // conversations.create of a private channel, by name
    conversations: Reply<seq<Conversation>>,             // conversations.list
    invite: (string, string) -> Reply<seq<UserError>>,  // conversations.invite, by channel ID and one user ID
    ims: Reply<seq<IM>>)                                 // im.list

  /** The convention every call follows: a transport failure and an answer
      that does not decode are wrapped, a reply with `ok = false` becomes
      exactly "API error: " + its `error` field. */
  function Interpret<T>(verb: string, r: Reply<T>): (res: Result<T>)
    ensures res.Ok? <==> r.Decoded? && r.ok
    ensures res.Ok? ==> res.value == r.body
    ensures r.Decoded? && !r.ok ==> res == Err("API error: " + r.error)
    ensures r.NoReply? ==> res == Err("unable to make " + verb + " request: " + r.cause)
    ensures r.Garbled? ==> res == Err("unable to unmarshal response: " + r.cause)
  {
    match r
    case NoReply(cause) => Err("unable to make " + verb + " request: " + cause)
    case Garbled(cause) => Err("unable to unmarshal response: " + cause)
    case Decoded(ok, error, body) => if !ok then Err("API error: " + error) else Ok(body)
  }

  /** An "API error: ..." text comes only from a reply with `ok = false` and
      that very `error` field, never from a transport or decoding failure. */
  lemma ApiErrorText<T>(verb: string, r: Reply<T>, e: string)
    ensures Interpret(verb, r) == Err("API error: " + e) <==> r.Decoded? && !r.ok && r.error == e
  {
    if r.NoReply? {
      assert ("unable to make " + verb + " request: " + r.cause)[0] == 'u';
      assert ("API error: " + e)[0] == 'A';
    } else if r.Garbled? {
      assert ("unable to unmarshal response: " + r.cause)[0] == 'u';
      assert ("API error: " + e)[0] == 'A';
    } else if !r.ok && Interpret(verb, r) == Err("API error: " + e) {
      assert ("API error: " + r.error)[11..] == r.error;
      assert ("API error: " + e)[11..] == e;
    }
  }

  /** `SendAPIMessage`. */
  function SendAPIMessage(api: Platform, chanID: string, text: MessageText): (o: Outcome)
    ensures o.Pass? <==> api.post(chanID, text).Decoded? && api.post(chanID, text).ok
  {
    match Interpret("POST", api.post(chanID, text))
    case Ok(_) => Pass
    case Err(e) => Fail(e)
  }

  /** `CreateNewConversation(token, name, true)`: the new channel's ID. */
  function CreateNewConversation(api: Platform, name: string): (r: Result<string>)
    ensures r.Ok? <==> api.create(name).Decoded? && api.create(name).ok
    ensures r.Ok? ==> r.value == api.create(name).body.id
    ensures r.Err? ==> r.error == Interpret("GET", api.create(name)).error
  {
    match Interpret("GET", api.create(name))
    case Ok(conv) => Ok(conv.id)
    case Err(e) => Err(e)
  }

  /** `GetConversations(token, false)`. */
  function GetConversations(api: Platform): Result<seq<Conversation>> {
    Interpret("GET", api.conversations)
  }

  /** `GetConversationMembers`. */
  function GetConversationMembers(api: Platform, chanID: string): Result<seq<string>> {
    Interpret("GET", api.members(chanID))
  }

  /** `GetUserProfile`: the profile returned carries the ID it was asked for,
      whatever the reply said. */
  function GetUserProfile(api: Platform, userID: string): (r: Result<UserProfile>)
    ensures r.Ok? <==> api.profile(userID).Decoded? && api.profile(userID).ok
    ensures r.Ok? ==> r.value.id == userID
    ensures r.Ok? ==> r.value.(id := api.profile(userID).body.id) == api.profile(userID).body
    ensures r.Err? ==> r == Err(Interpret("GET", api.profile(userID)).error)
  {
    match Interpret("GET", api.profile(userID))
    case Ok(p) => Ok(p.(id := userID))
    case Err(e) => Err(e)
  }

  /** The first direct-message channel in `ims` with `userID`. */
  function FirstIMWith(ims: seq<IM>, userID: string): Result<string>
    decreases |ims|
  {
    if ims == [] then Err("user not found")
    else if ims[0].user == userID then Ok(ims[0].id)
    else FirstIMWith(ims[1..], userID)
  }

  /** The direct-message channel with `userID`, as `FindDMByUserID` finds it. */
  function DMChannel(api: Platform, userID: string): Result<string> {
    match Interpret("GET", api.ims)
    case Err(e) => Err(e)
    case Ok(ims) => FirstIMWith(ims, userID)
  }

  /** `FindDMByUserID`: the ID of the first direct-message channel with `userID`. */
  method FindDMByUserID(api: Platform, userID: string) returns (r: Result<string>)
    ensures r == DMChannel(api, userID)
    ensures api.ims.NoReply? ==> r == Err("unable to make GET request: " + api.ims.cause)
    ensures api.ims.Garbled? ==> r == Err("unable to unmarshal response: " + api.ims.cause)
    ensures api.ims.Decoded? && !api.ims.ok ==> r == Err("API error: " + api.ims.error)
    ensures api.ims.Decoded? && api.ims.ok ==>
      var ims := api.ims.body;
      && (r.Ok? <==> exists i :: 0 <= i < |ims| && ims[i].user == userID)
      && (r.Ok? ==> exists i :: 0 <= i < |ims| && ims[i].user == userID && r.value == ims[i].id
                               && forall j :: 0 <= j < i ==> ims[j].user != userID)
      && (r.Err? ==> r.error == "user not found")
  {
    var listed := Interpret("GET", api.ims);
    if listed.Err? {
      return Err(listed.error);
    }
    var ims := listed.value;
    var i := 0;
    while i < |ims|
      invariant 0 <= i <= |ims|
      invariant forall j :: 0 <= j < i ==> ims[j].user != userID
      invariant FirstIMWith(ims[i..], userID) == DMChannel(api, userID)
    {
      assert ims[i..][1..] == ims[i + 1..];
      if ims[i].user == userID {
        return Ok(ims[i].id);
      }
      i := i + 1;
    }
    return Err("user not found");
  }

  /** A per-user entry that makes the invitation fail: not ok, and not one of
      the two ignorable errors. */
  predicate Failing(e: UserError) {
    !e.ok && e.error != AlreadyInChannel && e.error != CantInviteSelf
  }

  /** How a failing entry names its user. */
  function UserTag(user: string): string {
    "user " + user + " - "
  }

  /** What one failing entry puts in front of the error built so far. */
  function WrapPrefix(e: UserError): string {
    if !Failing(e) then ""
    else UserTag(e.user) + (if e.error == "" then "unknown error: " else e.error + ": ")
  }

  /** The error built while scanning the per-user entries in order: each
      failing entry wraps what was built so far (`errors.Wrapf`). */
  function WrapFailures(errs: seq<UserError>, acc: string): string
    decreases |errs|
  {
    if errs == [] then acc else WrapFailures(errs[1..], WrapPrefix(errs[0]) + acc)
  }

  /** How the answer to inviting one user is judged. */
  function InviteReply(id: string, r: Reply<seq<UserError>>): (o: Outcome)
    ensures o.Pass? <==>
      && r.Decoded?
      && (|| r.ok
          || (|r.body| > 0 && forall e :: e in r.body ==> !Failing(e))
          || (|r.body| == 0 && (r.error == AlreadyInChannel || r.error == CantInviteSelf)))
  {
    match r
    case NoReply(cause) => Fail("unable to make POST request for user " + id + ": " + cause)
    case Garbled(cause) => Fail("unable to unmarshal response for user " + id + ": " + cause)
    case Decoded(ok, error, errs) =>
      if ok then Pass
      else if |errs| > 0 then
        if exists e :: e in errs && Failing(e)
        then Fail("multiple API errors: " + WrapFailures(errs, "total error count: " + Itoa(|errs|)))
        else Pass
      else if error == AlreadyInChannel || error == CantInviteSelf then Pass
      else if error == "" then Fail("unknown API error for user " + id)
      else Fail("API error for user " + id + ": " + error)
  }

  /** The text of each way an invitation fails. */
  lemma InviteReplyFailures(id: string, r: Reply<seq<UserError>>)
    ensures var o := InviteReply(id, r);
      && (r.Decoded? && !r.ok && (exists e :: e in r.body && Failing(e)) ==>
          o == Fail("multiple API errors: " + WrapFailures(r.body, "total error count: " + Itoa(|r.body|))))
      && (r.Decoded? && !r.ok && |r.body| == 0 && r.error == "" ==> o == Fail("unknown API error for user " + id))
      && (r.Decoded? && !r.ok && |r.body| == 0 && r.error !in {"", AlreadyInChannel, CantInviteSelf}
          ==> o == Fail("API error for user " + id + ": " + r.error))
      && (r.NoReply? ==> o == Fail("unable to make POST request for user " + id + ": " + r.cause))
      && (r.Garbled? ==> o == Fail("unable to unmarshal response for user " + id + ": " + r.cause))
  {
  }

  /** `t` occurs somewhere in `s`. */
  ghost predicate Mentions(s: string, t: string) {
    exists k :: OccursAt(s, t, k)
  }

  /** Everything the scan puts in front of the initial text, last entry first. */
  function WrapHead(errs: seq<UserError>): string
    decreases |errs|
  {
    if errs == [] then "" else WrapHead(errs[1..]) + WrapPrefix(errs[0])
  }

  lemma {:induction false} WrapKeepsTail(errs: seq<UserError>, acc: string)
    ensures WrapFailures(errs, acc) == WrapHead(errs) + acc
    decreases |errs|
  {
    if errs != [] {
      var head, prefix := WrapHead(errs[1..]), WrapPrefix(errs[0]);
      WrapKeepsTail(errs[1..], prefix + acc);
      AppendAssociates(head, prefix, acc);
    }
  }

  lemma OccursAtStart(t: string, rest: string)
    ensures OccursAt(t + rest, t, 0)
  {
    assert (t + rest)[..|t|] == t;
  }

  lemma OccursAfter(p: string, s: string, t: string, k: int)
    requires OccursAt(s, t, k)
    ensures OccursAt(p + s, t, |p| + k)
  {
    assert (p + s)[|p| + k..|p| + k + |t|] == s[k..k + |t|];
  }

  /** The combined invitation error names every user whose entry failed. */
  lemma {:induction false} WrapNamesFailures(errs: seq<UserError>, acc: string, e: UserError)
    requires e in errs && Failing(e)
    ensures Mentions(WrapFailures(errs, acc), UserTag(e.user))
    decreases |errs|
  {
    var f := errs[0];
    var next := WrapPrefix(f) + acc;
    if f == e {
      var t := UserTag(e.user);
      var reason := if e.error == "" then "unknown error: " else e.error + ": ";
      AppendAssociates(t, reason, acc);
      OccursAtStart(t, reason + acc);
      WrapKeepsTail(errs[1..], next);
      OccursAfter(WrapHead(errs[1..]), next, t, 0);
    } else {
      assert e in errs[1..];
      WrapNamesFailures(errs[1..], next, e);
    }
  }

  /** The result of inviting `ids` one at a time: the first failure, if any. */
  function InviteAll(api: Platform, chanID: string, ids: seq<string>): Outcome
  {
    if ids == [] then Pass
    else
      var first := InviteReply(ids[0], api.invite(chanID, ids[0]));
      if first.Fail? then first else InviteAll(api, chanID, ids[1..])
  }

  /** The members pass exactly when each one's reply passes; a failure is the
      first failing member's. */
  lemma {:induction false} InviteAllFirstFailure(api: Platform, chanID: string, ids: seq<string>)
    ensures var o := InviteAll(api, chanID, ids);
      && (o.Pass? <==> forall i :: 0 <= i < |ids| ==> InviteReply(ids[i], api.invite(chanID, ids[i])).Pass?)
      && (o.Fail? ==> exists i ::
           && 0 <= i < |ids|
           && InviteReply(ids[i], api.invite(chanID, ids[i])) == o
           && forall j :: 0 <= j < i ==> InviteReply(ids[j], api.invite(chanID, ids[j])).Pass?)
    decreases |ids|
  {
    if ids != [] && InviteReply(ids[0], api.invite(chanID, ids[0])).Pass? {
      var rest := InviteAll(api, chanID, ids[1..]);
      InviteAllFirstFailure(api, chanID, ids[1..]);
      assert forall i :: 1 <= i < |ids| ==> ids[i] == ids[1..][i - 1];
      if rest.Fail? {
        var i :| 0 <= i < |ids[1..]| && InviteReply(ids[1..][i], api.invite(chanID, ids[1..][i])) == rest
          && forall j :: 0 <= j < i ==> InviteReply(ids[1..][j], api.invite(chanID, ids[1..][j])).Pass?;
        assert InviteReply(ids[i + 1], api.invite(chanID, ids[i + 1])) == rest;
      }
    }
  }

  /** `InviteMembersToConversation`: one request per member, in list order; the
      first member whose answer fails ends the loop with that member's error,
      and no later member is asked for. `requested` lists the members asked. */
  method InviteMembersToConversation(api: Platform, chanID: string, memberIDs: seq<string>)
    returns (err: Outcome, requested: seq<string>)
    ensures err == InviteAll(api, chanID, memberIDs)
    ensures |requested| <= |memberIDs| && requested == memberIDs[..|requested|]
    ensures err.Pass? ==> requested == memberIDs
    ensures err.Fail? ==>
      && |requested| > 0
      && err == InviteReply(requested[|requested| - 1], api.invite(chanID, requested[|requested| - 1]))
    ensures memberIDs == [] ==> err == Pass && requested == []
  {
    requested := [];
    var i := 0;
    while i < |memberIDs|
      invariant 0 <= i <= |memberIDs|
      invariant requested == memberIDs[..i]
      invariant InviteAll(api, chanID, memberIDs) == InviteAll(api, chanID, memberIDs[i..])
    {
      var id := memberIDs[i];
      requested := requested + [id];
      var outcome := InviteReply(id, api.invite(chanID, id));
      assert memberIDs[i..][1..] == memberIDs[i + 1..];
      if outcome.Fail? {
        return outcome, requested;
      }
      i := i + 1;
    }
    return Pass, requested;
  }
}
