/** The membership filters of bot.go: `stringInSlice` and the two loops that
    delete entries from a member list in place. */
module Filter {

  /** `stringInSlice`: a linear search. */
  method StringInSlice(s: string, ss: seq<string>) returns (found: bool)
    ensures found <==> s in ss
  {
    var i := 0;
    while i < |ss|
      invariant 0 <= i <= |ss|
      invariant s !in ss[..i]
    {
      if ss[i] == s {
        return true;
      }
      i := i + 1;
    }
    return false;
  }

  /** Deleting position `i` keeps what comes before it and shifts up what
      comes after it. */
  lemma DeleteAt(s: seq<string>, i: int)
    requires 0 <= i < |s|
    ensures (s[..i] + s[i + 1..])[..i] == s[..i]
    ensures (s[..i] + s[i + 1..])[i..] == s[i + 1..]
  {
  }

  /** Two suffixes that agree start with the same element, and agree after it. */
  lemma SuffixStep(s: seq<string>, t: seq<string>, i: int, k: int)
    requires 0 <= i < |s| && 0 <= k <= |t| && s[i..] == t[k..]
    ensures k < |t| && s[i] == t[k] && s[i + 1..] == t[k + 1..]
  {
    assert s[i..][0] == s[i] && s[i..][1..] == s[i + 1..];
    assert t[k..][0] == t[k] && t[k..][1..] == t[k + 1..];
  }

  /** The members not on the blacklist, in their original order. */
  function WithoutBlacklisted(members: seq<string>, blacklist: seq<string>): seq<string>
    decreases |members|
  {
    if members == [] then []
    else
      var last := members[|members| - 1];
      WithoutBlacklisted(members[..|members| - 1], blacklist) + (if last in blacklist then [] else [last])
  }

  lemma {:induction false} WithoutBlacklistedMembers(members: seq<string>, blacklist: seq<string>, x: string)
    ensures x in WithoutBlacklisted(members, blacklist) <==> x in members && x !in blacklist
    decreases |members|
  {
    if members != [] {
      var init := members[..|members| - 1];
      WithoutBlacklistedMembers(init, blacklist, x);
      assert members == init + [members[|members| - 1]];
    }
  }

  /** The roster filter of `announceBirthdays` (bot.go:175-182): deleting each
      blacklisted entry shifts the rest left, and the index stays put. */
  method RemoveBlacklisted(members: seq<string>, blacklist: seq<string>) returns (kept: seq<string>)
    ensures kept == WithoutBlacklisted(members, blacklist)
    ensures forall x :: x in kept <==> x in members && x !in blacklist
  {
    kept := members;
    var i := 0;
    ghost var k := 0;
    while i < |kept|
      invariant 0 <= i <= |kept| && 0 <= k <= |members|
      invariant kept[..i] == WithoutBlacklisted(members[..k], blacklist)
      invariant kept[i..] == members[k..]
    {
      SuffixStep(kept, members, i, k);
      assert members[..k + 1][..k] == members[..k];
      var listed := StringInSlice(kept[i], blacklist);
      if listed {
        DeleteAt(kept, i);
        kept := kept[..i] + kept[i + 1..];
      } else {
        assert kept[..i + 1] == kept[..i] + [kept[i]];
        i := i + 1;
      }
      k := k + 1;
    }
    assert members[..k] == members;
    forall x ensures x in kept <==> x in members && x !in blacklist {
      WithoutBlacklistedMembers(members, blacklist, x);
    }
  }

  /** A main-channel member who is not invited to `honoree`'s channel: the
      honoree, and anyone blacklisted except the manager. */
  predicate NotInvited(x: string, blacklist: seq<string>, managerID: string, honoree: string) {
    (x in blacklist && x != managerID) || x == honoree
  }

  /** The members to invite, in their original order. */
  function InviteCandidates(members: seq<string>, blacklist: seq<string>, managerID: string, honoree: string): seq<string>
    decreases |members|
  {
    if members == [] then []
    else
      var last := members[|members| - 1];
      InviteCandidates(members[..|members| - 1], blacklist, managerID, honoree)
        + (if NotInvited(last, blacklist, managerID, honoree) then [] else [last])
  }

  /** Who is invited: every main-channel member other than the honoree (even
      when the honoree is the manager) who is not blacklisted, or is the manager. */
  lemma {:induction false} InviteCandidatesMembers(members: seq<string>, blacklist: seq<string>, managerID: string, honoree: string, x: string)
    ensures x in InviteCandidates(members, blacklist, managerID, honoree)
            <==> x in members && x != honoree && (x in blacklist ==> x == managerID)
    decreases |members|
  {
    if members != [] {
      var init := members[..|members| - 1];
      InviteCandidatesMembers(init, blacklist, managerID, honoree, x);
      assert members == init + [members[|members| - 1]];
    }
  }

  /** The invite-list filter of `sendBDsToNewChannels` (bot.go:323-329). */
  method RemoveNotInvited(members: seq<string>, blacklist: seq<string>, managerID: string, honoree: string)
    returns (kept: seq<string>)
    ensures kept == InviteCandidates(members, blacklist, managerID, honoree)
    ensures forall x :: x in kept <==> x in members && x != honoree && (x in blacklist ==> x == managerID)
  {
    kept := members;
    var i := 0;
    ghost var k := 0;
    while i < |kept|
      invariant 0 <= i <= |kept| && 0 <= k <= |members|
      invariant kept[..i] == InviteCandidates(members[..k], blacklist, managerID, honoree)
      invariant kept[i..] == members[k..]
    {
      SuffixStep(kept, members, i, k);
      assert members[..k + 1][..k] == members[..k];
      var listed := StringInSlice(kept[i], blacklist);
      if (listed && kept[i] != managerID) || kept[i] == honoree {
        DeleteAt(kept, i);
        kept := kept[..i] + kept[i + 1..];
      } else {
        assert kept[..i + 1] == kept[..i] + [kept[i]];
        i := i + 1;
      }
      k := k + 1;
    }
    assert members[..k] == members;
    forall x ensures x in kept <==> x in members && x != honoree && (x in blacklist ==> x == managerID) {
      InviteCandidatesMembers(members, blacklist, managerID, honoree, x);
    }
  }
}
