/** `announceBirthdays` (bot.go:162-280) and the scheduling of `bdWatcher`
    (bot.go:119-160): read the main channel's roster, drop the blacklist,
    fetch the profiles, sort the members into the manager tier and the
    channel tier (skipping those already announced), tell the manager, then
    provision the channels. */
module Notify {
  import opened Wrappers
  import opened Structs
  import opened SlackStructs
  import opened Strings
  import opened Calendar
  import opened Birthday
  import opened Cache
  import opened SlackApi
  import opened Filter
  import opened Provision

  // ---------------------------------------------------------------------
  // Scheduling window (bot.go:129, 149)

  /** A pass may run in the hours `workdayStart` to `workdayEnd`, both included. */
  predicate InWindow(c: Config, t: int) {
    c.workdayStart <= HourOf(t) <= c.workdayEnd
  }

  /** The hourly tick's test (bot.go:149) is the negation of the first
      check's test (bot.go:129). */
  function SkipTick(c: Config, t: int): (skip: bool)
    ensures skip <==> !InWindow(c, t)
  {
    HourOf(t) < c.workdayStart || HourOf(t) > c.workdayEnd
  }

  // ---------------------------------------------------------------------
  // Roster enrichment (bot.go:186-210)

  /** A profile request: a member ID to the profile read, or the error. */
  type Fetcher = string -> Result<UserProfile>

  function ProfileOf(api: Platform): Fetcher {
    id => GetUserProfile(api, id)
  }

  /** The fetched profile carries the ID it was asked for. */
  ghost predicate Stamps(fetch: Fetcher) {
    forall id :: fetch(id).Ok? ==> fetch(id).value.id == id
  }

  lemma ProfileOfStamps(api: Platform)
    ensures Stamps(ProfileOf(api))
  {
  }

  /** The profiles that could be fetched, in roster order. */
  function Fetched(fetch: Fetcher, members: seq<string>): (r: seq<UserProfile>)
    ensures |r| <= |members|
    decreases |members|
  {
    if members == [] then []
    else
      var init := Fetched(fetch, members[..|members| - 1]);
      var got := fetch(members[|members| - 1]);
      init + (if got.Ok? then [got.value] else [])
  }

  lemma {:induction false} FetchedAppend(fetch: Fetcher, a: seq<string>, b: seq<string>)
    ensures Fetched(fetch, a + b) == Fetched(fetch, a) + Fetched(fetch, b)
    decreases |b|
  {
    if b == [] {
      assert a + b == a;
    } else {
      var b' := b[..|b| - 1];
      assert (a + b)[..|a + b| - 1] == a + b';
      FetchedAppend(fetch, a, b');
    }
  }

  /** A profile is fetched exactly when some member's request returns it. */
  lemma {:induction false} FetchedMembers(fetch: Fetcher, members: seq<string>, p: UserProfile)
    ensures p in Fetched(fetch, members) <==> exists x :: x in members && fetch(x) == Ok(p)
    decreases |members|
  {
    if members != [] {
      var init := members[..|members| - 1];
      var last := members[|members| - 1];
      FetchedMembers(fetch, init, p);
      assert members == init + [last];
      if fetch(last) == Ok(p) {
        assert last in members;
      }
      if exists x :: x in members && fetch(x) == Ok(p) {
        var x :| x in members && fetch(x) == Ok(p);
        assert x in init || x == last;
      }
    }
  }

  /** Taking member `k` out of the queue moves its profile, if any, to the
      collected ones. */
  lemma FetchedPick(fetch: Fetcher, pending: seq<string>, k: int)
    requires 0 <= k < |pending|
    ensures multiset(Fetched(fetch, pending))
            == multiset(Fetched(fetch, pending[..k] + pending[k + 1..])) + multiset(Fetched(fetch, [pending[k]]))
  {
    var a, x, b := pending[..k], [pending[k]], pending[k + 1..];
    SplitAt(pending, k);
    FetchedAppend(fetch, a, x + b);
    FetchedAppend(fetch, x, b);
    FetchedAppend(fetch, a, b);
  }

  /** The fan-out: one profile request per member, the answers collected in
      whatever order they arrive, failed requests dropped. */
  method Enrich(fetch: Fetcher, members: seq<string>) returns (profiles: seq<UserProfile>)
    ensures multiset(profiles) == multiset(Fetched(fetch, members))
  {
    profiles := [];
    var pending := members;
    while pending != []
      invariant multiset(profiles) + multiset(Fetched(fetch, pending)) == multiset(Fetched(fetch, members))
      decreases |pending|
    {
      var k :| 0 <= k < |pending|;
      var user := fetch(pending[k]);
      FetchedPick(fetch, pending, k);
      assert [pending[k]][..0] == [];
      if user.Ok? {
        profiles := profiles + [user.value];
      }
      pending := pending[..k] + pending[k + 1..];
    }
  }

  // ---------------------------------------------------------------------
  // Classification (bot.go:212-253)

  datatype Tier = ManagerTier | ChannelTier | NoTier

  /** The tier of a member `days` from their birthday. */
  function TierOf(days: int, high: int, low: int): (t: Tier)
    ensures t == ManagerTier <==> low < days <= high
    ensures t == ChannelTier <==> days <= low
    ensures t == NoTier <==> days > high && days > low
  {
    if days <= high && days > low then ManagerTier
    else if days <= low then ChannelTier
    else NoTier
  }

  /** The birthday arithmetic as the pass sees it: a Skype field to the
      days left. */
  type DaysOf = string -> DaysLeft

  /** `getUserBDInfo` at the instant `now`. */
  function DaysUntil(now: int): DaysOf {
    field => GetUserBDInfo(now, field)
  }

  /** Only four-character fields parse, and they give no negative count. */
  ghost predicate Sound(daysOf: DaysOf) {
    forall field :: daysOf(field).err.None? ==> |field| == 4 && 0 <= daysOf(field).days
  }

  lemma DaysUntilSound(now: int)
    ensures Sound(DaysUntil(now))
  {
  }

  /** The cache token: the `DDMM` field and the current year. */
  function Token(p: UserProfile, year: int): (token: string)
    ensures |token| > |p.skype| && token[..|p.skype|] == p.skype
  {
    p.skype + Itoa(year)
  }

  /** Tokens of different years differ: last year's cache entry never hides
      this year's birthday. */
  lemma TokenYears(p: UserProfile, y: int, y': int)
    requires Token(p, y) == Token(p, y')
    ensures y == y'
  {
    assert Token(p, y)[|p.skype|..] == Itoa(y);
    assert Token(p, y')[|p.skype|..] == Itoa(y');
    ItoaInjective(y, y');
  }

  function BucketOf(t: Tier, mBucket: string, cBucket: string): string {
    if t == ManagerTier then mBucket else cBucket
  }

  /** Where a profile goes: nowhere when its field does not parse or it is
      too far off, nowhere when that tier's cache holds its token already. */
  function Route(p: UserProfile, daysOf: DaysOf, year: int, c: Config, store: Store, mBucket: string, cBucket: string): Tier {
    var d := daysOf(p.skype);
    if d.err.Some? then NoTier
    else
      var t := TierOf(d.days, c.highThreshold, c.lowThreshold);
      if t != NoTier && Holds(store, mBucket, cBucket, BucketOf(t, mBucket, cBucket), p.id, Token(p, year)) then NoTier
      else t
  }

  /** The details recorded for a planned member. */
  function InfoOf(p: UserProfile, daysOf: DaysOf, year: int): BdInfo {
    BdInfo(p.realName, ToLower(p.lastName), Token(p, year), daysOf(p.skype).days)
  }

  /** What a routed profile carries into its tier: a parsed field, days in
      the tier's range, and a token long enough to be printed as a date. */
  lemma RouteFacts(p: UserProfile, daysOf: DaysOf, year: int, c: Config, store: Store, mBucket: string, cBucket: string)
    requires Sound(daysOf)
    ensures var t := Route(p, daysOf, year, c, store, mBucket, cBucket);
            var info := InfoOf(p, daysOf, year);
            && (t == ManagerTier ==> c.lowThreshold < info.daysLeft <= c.highThreshold)
            && (t == ChannelTier ==> info.daysLeft <= c.lowThreshold)
            && (t != NoTier ==> daysOf(p.skype).err.None? && 0 <= info.daysLeft && |info.birthday| >= 4)
  {
  }

  /** How the classification loop treats each profile: its tier and the
      details recorded for it. */
  datatype Router = Router(route: UserProfile -> Tier, info: UserProfile -> BdInfo)

  /** The router of one pass. */
  function PassRouter(daysOf: DaysOf, year: int, c: Config, store: Store, mBucket: string, cBucket: string): Router {
    Router(p => Route(p, daysOf, year, c, store, mBucket, cBucket), p => InfoOf(p, daysOf, year))
  }

  /** The two announcement maps. */
  datatype Plan = Plan(manager: map<string, BdInfo>, channel: map<string, BdInfo>)

  /** The maps after the classification loop: a later profile with the same
      ID overwrites an earlier one. */
  function Classified(profiles: seq<UserProfile>, r: Router): Plan
    decreases |profiles|
  {
    if profiles == [] then Plan(map[], map[])
    else
      var plan := Classified(profiles[..|profiles| - 1], r);
      var p := profiles[|profiles| - 1];
      match r.route(p)
      case ManagerTier => plan.(manager := plan.manager[p.id := r.info(p)])
      case ChannelTier => plan.(channel := plan.channel[p.id := r.info(p)])
      case NoTier => plan
  }

  /** `profiles[i]` has ID `id` and went to tier `t`. */
  predicate RoutedAt(profiles: seq<UserProfile>, r: Router, t: Tier, id: string, i: int) {
    0 <= i < |profiles| && profiles[i].id == id && r.route(profiles[i]) == t
  }

  /** `profiles[i]` is the last profile with ID `id` that went to tier `t`. */
  predicate LastRouted(profiles: seq<UserProfile>, r: Router, t: Tier, id: string, i: int) {
    && RoutedAt(profiles, r, t, id, i)
    && forall j :: i < j < |profiles| ==> !RoutedAt(profiles, r, t, id, j)
  }

  /** How routing facts about a roster extend to one more profile. */
  lemma RoutedExtend(profiles: seq<UserProfile>, r: Router, t: Tier, id: string)
    requires profiles != []
    ensures var n := |profiles| - 1;
            && ((exists i :: RoutedAt(profiles, r, t, id, i))
                <==> (exists i :: RoutedAt(profiles[..n], r, t, id, i)) || RoutedAt(profiles, r, t, id, n))
            && (forall i :: LastRouted(profiles[..n], r, t, id, i) && !RoutedAt(profiles, r, t, id, n)
                            ==> LastRouted(profiles, r, t, id, i))
            && (RoutedAt(profiles, r, t, id, n) ==> LastRouted(profiles, r, t, id, n))
  {
    var n := |profiles| - 1;
    var init := profiles[..n];
    assert forall i :: 0 <= i < n ==> init[i] == profiles[i];
    assert forall i :: RoutedAt(init, r, t, id, i) ==> RoutedAt(profiles, r, t, id, i);
    assert forall i :: i < n && RoutedAt(profiles, r, t, id, i) ==> RoutedAt(init, r, t, id, i);
  }

  /** The manager map holds exactly the IDs some profile routed there, each
      with the details of the last such profile; likewise the channel map. */
  lemma {:induction false} ClassifiedEntries(profiles: seq<UserProfile>, r: Router, id: string)
    ensures var plan := Classified(profiles, r);
            && (id in plan.manager <==> exists i :: RoutedAt(profiles, r, ManagerTier, id, i))
            && (id in plan.channel <==> exists i :: RoutedAt(profiles, r, ChannelTier, id, i))
            && (id in plan.manager ==> exists i :: LastRouted(profiles, r, ManagerTier, id, i)
                                                   && plan.manager[id] == r.info(profiles[i]))
            && (id in plan.channel ==> exists i :: LastRouted(profiles, r, ChannelTier, id, i)
                                                   && plan.channel[id] == r.info(profiles[i]))
    decreases |profiles|
  {
    if profiles != [] {
      var n := |profiles| - 1;
      ClassifiedEntries(profiles[..n], r, id);
      RoutedExtend(profiles, r, ManagerTier, id);
      RoutedExtend(profiles, r, ChannelTier, id);
    }
  }

  /** Every planned entry of a pass lies in its tier's range and carries a
      printable token. */
  lemma PlanInTiers(profiles: seq<UserProfile>, daysOf: DaysOf, year: int, c: Config, store: Store,
                    mBucket: string, cBucket: string)
    requires Sound(daysOf)
    ensures var plan := Classified(profiles, PassRouter(daysOf, year, c, store, mBucket, cBucket));
            && (forall id :: id in plan.manager ==>
                  c.lowThreshold < plan.manager[id].daysLeft <= c.highThreshold && |plan.manager[id].birthday| >= 4)
            && (forall id :: id in plan.channel ==>
                  0 <= plan.channel[id].daysLeft <= c.lowThreshold && |plan.channel[id].birthday| >= 4)
  {
    var r := PassRouter(daysOf, year, c, store, mBucket, cBucket);
    var plan := Classified(profiles, r);
    forall id | id in plan.manager || id in plan.channel
      ensures id in plan.manager ==>
                c.lowThreshold < plan.manager[id].daysLeft <= c.highThreshold && |plan.manager[id].birthday| >= 4
      ensures id in plan.channel ==>
                0 <= plan.channel[id].daysLeft <= c.lowThreshold && |plan.channel[id].birthday| >= 4
    {
      ClassifiedEntries(profiles, r, id);
      if id in plan.manager {
        var i :| LastRouted(profiles, r, ManagerTier, id, i) && plan.manager[id] == r.info(profiles[i]);
        RouteFacts(profiles[i], daysOf, year, c, store, mBucket, cBucket);
      }
      if id in plan.channel {
        var i :| LastRouted(profiles, r, ChannelTier, id, i) && plan.channel[id] == r.info(profiles[i]);
        RouteFacts(profiles[i], daysOf, year, c, store, mBucket, cBucket);
      }
    }
  }

  lemma FetchedID(fetch: Fetcher, members: seq<string>, profiles: seq<UserProfile>, i: int)
    requires Stamps(fetch) && 0 <= i < |profiles|
    requires multiset(profiles) == multiset(Fetched(fetch, members))
    ensures profiles[i].id in members
  {
    assert profiles[i] in multiset(profiles);
    assert profiles[i] in Fetched(fetch, members);
    FetchedMembers(fetch, members, profiles[i]);
    var x :| x in members && fetch(x) == Ok(profiles[i]);
    assert fetch(x).value.id == x;
  }

  /** Only members of the filtered roster can be planned: the blacklisted
      never are. */
  lemma PlannedAreMembers(fetch: Fetcher, members: seq<string>, profiles: seq<UserProfile>, r: Router, id: string)
    requires Stamps(fetch)
    requires multiset(profiles) == multiset(Fetched(fetch, members))
    ensures var plan := Classified(profiles, r);
            id in plan.manager || id in plan.channel ==> id in members
  {
    var plan := Classified(profiles, r);
    ClassifiedEntries(profiles, r, id);
    if id in plan.manager {
      var i :| RoutedAt(profiles, r, ManagerTier, id, i);
      FetchedID(fetch, members, profiles, i);
    } else if id in plan.channel {
      var i :| RoutedAt(profiles, r, ChannelTier, id, i);
      FetchedID(fetch, members, profiles, i);
    }
  }

  /** One profile of the classification loop: its tier after the cache
      check, and the details it would be recorded with. */
  method RouteProfile(db: DB, p: UserProfile, now: int, year: int, c: Config) returns (t: Tier, info: BdInfo)
    ensures t == Route(p, DaysUntil(now), year, c, db.buckets, db.managerBucketName, db.channelBucketName)
    ensures info == InfoOf(p, DaysUntil(now), year)
  {
    var d := GetUserBDInfo(now, p.skype);
    var currentBD := p.skype + Itoa(year);
    info := BdInfo(p.realName, ToLower(p.lastName), currentBD, d.days);
    if d.err.Some? {
      return NoTier, info;
    }
    if d.days <= c.highThreshold && d.days > c.lowThreshold {
      var ok, err := db.CheckUserBDInCache(db.managerBucketName, p.id, currentBD);
      t := if err.Pass? && ok then NoTier else ManagerTier;
    } else if d.days <= c.lowThreshold {
      var ok, err := db.CheckUserBDInCache(db.channelBucketName, p.id, currentBD);
      t := if err.Pass? && ok then NoTier else ChannelTier;
    } else {
      t := NoTier;
    }
  }

  /** The classification loop; it only reads the cache. A failed cache read
      is logged and the member is announced anyway. */
  method ClassifyProfiles(db: DB, profiles: seq<UserProfile>, now: int, c: Config) returns (plan: Plan)
    ensures plan == Classified(profiles, PassRouter(DaysUntil(now), YearOfDay(DayOf(now)), c, db.buckets,
                                                    db.managerBucketName, db.channelBucketName))
  {
    var year := YearOfDay(DayOf(now));
    ghost var r := PassRouter(DaysUntil(now), year, c, db.buckets, db.managerBucketName, db.channelBucketName);
    plan := Plan(map[], map[]);
    var i := 0;
    while i < |profiles|
      invariant 0 <= i <= |profiles|
      invariant plan == Classified(profiles[..i], r)
    {
      var p := profiles[i];
      assert profiles[..i + 1][..i] == profiles[..i];
      i := i + 1;
      var t, info := RouteProfile(db, p, now, year, c);
      if t == ManagerTier {
        plan := plan.(manager := plan.manager[p.id := info]);
      } else if t == ChannelTier {
        plan := plan.(channel := plan.channel[p.id := info]);
      }
    }
    assert profiles[..i] == profiles;
  }

  // ---------------------------------------------------------------------
  // Delivery (bot.go:255-276)

  /** The direct message telling the manager about `id`. */
  function ManagerText(msgs: Messages, id: string, info: BdInfo): MessageText {
    Formatted(msgs.managerAnnounce, [Str(id), Int(info.daysLeft)])
  }

  /** No member is listed twice. */
  predicate NoRepeats(s: seq<string>) {
    forall i, j :: 0 <= i < j < |s| ==> s[i] != s[j]
  }

  lemma AppendFresh(s: seq<string>, x: string)
    requires NoRepeats(s) && x !in s
    ensures NoRepeats(s + [x])
  {
  }

  /** The manager accepted the direct message about `id`. */
  predicate Accepted(api: Platform, c: Config, msgs: Messages, mgr: map<string, BdInfo>, id: string) {
    id in mgr && SendAPIMessage(api, c.managerDM, ManagerText(msgs, id, mgr[id])).Pass?
  }

  /** The manager-tier members whose direct message was accepted. */
  function Delivered(api: Platform, c: Config, msgs: Messages, mgr: map<string, BdInfo>): set<string> {
    set id | id in mgr && Accepted(api, c, msgs, mgr, id)
  }

  /** The manager loop, in map order: each member gets one direct message to
      the manager, and is saved in the manager cache only once that message
      was accepted; a failure skips that member only. */
  method NotifyManager(db: DB, api: Platform, c: Config, msgs: Messages, mgr: map<string, BdInfo>)
    returns (attempts: seq<string>)
    modifies db
    ensures forall id :: id in attempts <==> id in mgr
    ensures NoRepeats(attempts)
    ensures db.buckets == SavedEach(old(db.buckets), db.managerBucketName, db.channelBucketName, db.managerBucketName,
                                    Tokens(mgr, Delivered(api, c, msgs, mgr)))
  {
    attempts := [];
    ghost var delivered: set<string> := {};
    SavedNothing(db.buckets, db.managerBucketName, db.channelBucketName, db.managerBucketName);
    assert Tokens(mgr, {}) == map[];
    var pending := mgr.Keys;
    while pending != {}
      invariant pending <= mgr.Keys
      invariant forall id :: id in attempts <==> id in mgr && id !in pending
      invariant NoRepeats(attempts)
      invariant forall id :: id in delivered <==> id in mgr && id !in pending && Accepted(api, c, msgs, mgr, id)
      invariant db.buckets == SavedEach(old(db.buckets), db.managerBucketName, db.channelBucketName, db.managerBucketName,
                                        Tokens(mgr, delivered))
      decreases pending
    {
      var id :| id in pending;
      pending := pending - {id};
      AppendFresh(attempts, id);
      attempts := attempts + [id];
      var sent := SendAPIMessage(api, c.managerDM, ManagerText(msgs, id, mgr[id]));
      if sent.Pass? {
        TokensStep(mgr, delivered, id);
        SavedEachStep(old(db.buckets), db.managerBucketName, db.channelBucketName, db.managerBucketName,
                      Tokens(mgr, delivered), id, mgr[id].birthday);
        var saved := db.SaveUserBDToCache(db.managerBucketName, id, mgr[id].birthday);
        delivered := delivered + {id};
      }
    }
    assert delivered == Delivered(api, c, msgs, mgr);
  }

  /** The store after a pass that delivered `plan`: the accepted manager
      messages in the manager bucket, the announced honorees in the channel
      bucket. */
  function AfterPass(store: Store, mBucket: string, cBucket: string, api: Platform, c: Config, msgs: Messages,
                     plan: Plan, announced: set<string>): Store {
    SavedEach(SavedEach(store, mBucket, cBucket, mBucket, Tokens(plan.manager, Delivered(api, c, msgs, plan.manager))),
              mBucket, cBucket, cBucket, Tokens(plan.channel, announced))
  }

  /** A member whose direct message the manager accepted is not reported to
      the manager again by a later pass of the same year over the store this
      pass left behind: its token is in the manager bucket. */
  lemma ManagerNotRepeated(store: Store, mBucket: string, cBucket: string, api: Platform, c: Config, msgs: Messages,
                           plan: Plan, announced: set<string>, p: UserProfile, daysOf: DaysOf, year: int, c': Config)
    requires mBucket in store && cBucket in store && mBucket != cBucket
    requires p.id != "" && p.id in Delivered(api, c, msgs, plan.manager)
    requires plan.manager[p.id].birthday == Token(p, year)
    ensures Route(p, daysOf, year, c', AfterPass(store, mBucket, cBucket, api, c, msgs, plan, announced), mBucket, cBucket)
            != ManagerTier
  {
    var tokens := Tokens(plan.manager, Delivered(api, c, msgs, plan.manager));
    var mid := SavedEach(store, mBucket, cBucket, mBucket, tokens);
    assert mid[mBucket] == store[mBucket] + Storable(tokens);
    assert mid[mBucket][p.id] == Token(p, year);
    var after := AfterPass(store, mBucket, cBucket, api, c, msgs, plan, announced);
    assert after[mBucket] == mid[mBucket];
    assert Holds(after, mBucket, cBucket, mBucket, p.id, Token(p, year));
  }

  /** An honoree whose channel got its announcement is not announced again
      by a later pass of the same year over the store this pass left behind:
      its token is in the channel bucket. */
  lemma ChannelNotRepeated(store: Store, mBucket: string, cBucket: string, api: Platform, c: Config, msgs: Messages,
                           plan: Plan, announced: set<string>, p: UserProfile, daysOf: DaysOf, year: int, c': Config)
    requires mBucket in store && cBucket in store && mBucket != cBucket
    requires p.id != "" && p.id in announced && p.id in plan.channel
    requires plan.channel[p.id].birthday == Token(p, year)
    ensures Route(p, daysOf, year, c', AfterPass(store, mBucket, cBucket, api, c, msgs, plan, announced), mBucket, cBucket)
            != ChannelTier
  {
    var mid := SavedEach(store, mBucket, cBucket, mBucket, Tokens(plan.manager, Delivered(api, c, msgs, plan.manager)));
    assert cBucket in mid;
    var tokens := Tokens(plan.channel, announced);
    var after := AfterPass(store, mBucket, cBucket, api, c, msgs, plan, announced);
    assert after[cBucket] == mid[cBucket] + Storable(tokens);
    assert after[cBucket][p.id] == Token(p, year);
    assert Holds(after, mBucket, cBucket, cBucket, p.id, Token(p, year));
  }

  /** The sending half of `announceBirthdays` (bot.go:255-276): the manager
      loop, then the channel batch when there is anything for it, whose
      error is returned as it is. */
  method Deliver(db: DB, api: Platform, c: Config, msgs: Messages, plan: Plan, year: int)
    returns (err: Outcome, ghost announced: set<string>, ghost failed: string)
    requires forall id :: id in plan.channel ==> |plan.channel[id].birthday| >= 4
    modifies db
    ensures announced <= plan.channel.Keys
    ensures AllAnnounced(api, c, msgs.channelAnnounce, plan.channel, year, announced)
    ensures db.buckets == AfterPass(old(db.buckets), db.managerBucketName, db.channelBucketName, api, c, msgs, plan, announced)
    ensures err.Pass? <==> announced == plan.channel.Keys
    ensures err.Fail? ==> failed in plan.channel && failed !in announced
                          && ChannelStep(api, c, msgs.channelAnnounce, failed, plan.channel[failed], year) == err
  {
    var attempts := NotifyManager(db, api, c, msgs, plan.manager);
    announced, failed := {}, "";
    if |plan.channel| > 0 {
      err, announced, failed := SendBDsToNewChannels(db, api, c, msgs.channelAnnounce, plan.channel, year);
      if err.Fail? {
        return;
      }
    } else {
      SavedNothing(db.buckets, db.managerBucketName, db.channelBucketName, db.channelBucketName);
      assert Tokens(plan.channel, {}) == map[];
    }
    err := Pass;
  }

  /** What one pass yields besides its store: the error, the profiles in
      arrival order, the two maps, and the honorees whose channel was
      announced. */
  datatype PassLog = PassLog(err: Outcome, profiles: seq<UserProfile>, plan: Plan, announced: set<string>)

  /** A pass at `now` over the store `before` that left the store `after`
      and logged `log` behaved as `announceBirthdays` does: the roster and
      empty-roster errors change nothing; otherwise the filtered roster is
      enriched (in any order), classified against `before`, and delivered. */
  ghost predicate PassBehaves(api: Platform, c: Config, msgs: Messages, mBucket: string, cBucket: string,
                              now: int, before: Store, after: Store, log: PassLog) {
    var members := GetConversationMembers(api, c.mainChannelID);
    && (members.Err? ==> log.err == Fail("unable to get channel: " + members.error) && after == before)
    && (members == Ok([]) ==> log.err == Fail("Slack channel is empty") && after == before)
    && (members.Ok? && members.value != [] ==>
          var year := YearOfDay(DayOf(now));
          var plan := log.plan;
          && multiset(log.profiles) == multiset(Fetched(ProfileOf(api), WithoutBlacklisted(members.value, c.blacklist)))
          && plan == Classified(log.profiles, PassRouter(DaysUntil(now), year, c, before, mBucket, cBucket))
          && log.announced <= plan.channel.Keys
          && AllAnnounced(api, c, msgs.channelAnnounce, plan.channel, year, log.announced)
          && after == AfterPass(before, mBucket, cBucket, api, c, msgs, plan, log.announced)
          && (log.err.Pass? <==> log.announced == plan.channel.Keys)
          && (log.err.Fail? ==> exists id :: id in plan.channel && id !in log.announced && |plan.channel[id].birthday| >= 4
                                 && ChannelStep(api, c, msgs.channelAnnounce, id, plan.channel[id], year) == log.err))
  }

  /** Each pass in `passes` ran at the matching instant of `checked` and
      turned the store `stores[k]` into `stores[k + 1]`. */
  ghost predicate PassesBehave(api: Platform, c: Config, msgs: Messages, mBucket: string, cBucket: string,
                               checked: seq<int>, stores: seq<Store>, passes: seq<PassLog>) {
    && |passes| == |checked| && |stores| == |checked| + 1
    && forall k {:trigger passes[k]} :: 0 <= k < |checked| ==>
         PassBehaves(api, c, msgs, mBucket, cBucket, checked[k], stores[k], stores[k + 1], passes[k])
  }

  lemma PassesBehaveStep(api: Platform, c: Config, msgs: Messages, mBucket: string, cBucket: string,
                         checked: seq<int>, stores: seq<Store>, passes: seq<PassLog>, t: int, after: Store, log: PassLog)
    requires PassesBehave(api, c, msgs, mBucket, cBucket, checked, stores, passes)
    requires PassBehaves(api, c, msgs, mBucket, cBucket, t, stores[|checked|], after, log)
    ensures PassesBehave(api, c, msgs, mBucket, cBucket, checked + [t], stores + [after], passes + [log])
  {
  }

  /** `announceBirthdays`. */
  method AnnounceBirthdays(db: DB, api: Platform, c: Config, msgs: Messages, now: int)
    returns (err: Outcome, profiles: seq<UserProfile>, plan: Plan, ghost announced: set<string>)
    modifies db
    ensures PassBehaves(api, c, msgs, db.managerBucketName, db.channelBucketName, now, old(db.buckets), db.buckets,
                        PassLog(err, profiles, plan, announced))
  {
    profiles, plan, announced := [], Plan(map[], map[]), {};
    var chMembers := GetConversationMembers(api, c.mainChannelID);
    if chMembers.Err? {
      return Fail("unable to get channel: " + chMembers.error), profiles, plan, announced;
    }
    if |chMembers.value| == 0 {
      return Fail("Slack channel is empty"), profiles, plan, announced;
    }
    var kept := RemoveBlacklisted(chMembers.value, c.blacklist);
    profiles := Enrich(ProfileOf(api), kept);
    var year := YearOfDay(DayOf(now));
    plan := ClassifyProfiles(db, profiles, now, c);
    DaysUntilSound(now);
    PlanInTiers(profiles, DaysUntil(now), year, c, db.buckets, db.managerBucketName, db.channelBucketName);
    ghost var failed;
    err, announced, failed := Deliver(db, api, c, msgs, plan, year);
  }

  // ---------------------------------------------------------------------
  // The watcher (bot.go:119-160)

  /** The instants, in order, at which a pass runs. */
  function Scheduled(c: Config, ts: seq<int>): (r: seq<int>)
    ensures forall k :: 0 <= k < |r| ==> r[k] in ts && InWindow(c, r[k])
    decreases |ts|
  {
    if ts == [] then []
    else
      var init := Scheduled(c, ts[..|ts| - 1]);
      var t := ts[|ts| - 1];
      assert forall x :: x in ts[..|ts| - 1] ==> x in ts;
      init + (if InWindow(c, t) then [t] else [])
  }

  /** Every in-window instant gets its pass. */
  lemma {:induction false} ScheduledComplete(c: Config, ts: seq<int>, t: int)
    requires t in ts && InWindow(c, t)
    ensures t in Scheduled(c, ts)
    decreases |ts|
  {
    var n := |ts| - 1;
    if ts[n] != t {
      assert ts == ts[..n] + [ts[n]];
      ScheduledComplete(c, ts[..n], t);
    }
  }

  /** One pass of the watcher at `t`, logged after the passes before it. */
  method WatchedPass(db: DB, api: Platform, c: Config, msgs: Messages, t: int,
                     ghost checked: seq<int>, ghost stores: seq<Store>, ghost passes: seq<PassLog>)
    returns (err: Outcome, ghost log: PassLog)
    requires PassesBehave(api, c, msgs, db.managerBucketName, db.channelBucketName, checked, stores, passes)
    requires db.buckets == stores[|checked|]
    modifies db
    ensures err == log.err
    ensures PassesBehave(api, c, msgs, db.managerBucketName, db.channelBucketName,
                         checked + [t], stores + [db.buckets], passes + [log])
  {
    var profiles, plan;
    ghost var announced;
    err, profiles, plan, announced := AnnounceBirthdays(db, api, c, msgs, t);
    log := PassLog(err, profiles, plan, announced);
    PassesBehaveStep(api, c, msgs, db.managerBucketName, db.channelBucketName, checked, stores, passes, t, db.buckets, log);
  }

  /** `bdWatcher`: find the manager's direct-message channel, run a pass at
      start-up when in the window, then one per hourly tick in the window;
      the ticks end when the watcher is cancelled. The first failing pass
      ends the watcher. `checked` lists the instants a pass ran at,
      `passes[k]` is what the pass at `checked[k]` yielded, and it turned the
      store `stores[k]` into `stores[k + 1]`. */
  method BdWatcher(db: DB, api: Platform, c: Config, msgs: Messages, now: int, ticks: seq<int>)
    returns (err: Outcome, ghost checked: seq<int>, ghost passes: seq<PassLog>, ghost stores: seq<Store>)
    modifies db
    ensures |checked| <= |Scheduled(c, [now] + ticks)| && checked == Scheduled(c, [now] + ticks)[..|checked|]
    ensures err.Pass? ==> checked == Scheduled(c, [now] + ticks)
    ensures DMChannel(api, c.managerID).Err? <==> err.Fail? && checked == []
    ensures DMChannel(api, c.managerID).Err? ==> err == Fail("unable to find manager's DM: " + DMChannel(api, c.managerID).error)
    ensures |passes| == |checked| && |stores| == |checked| + 1
    ensures stores[0] == old(db.buckets) && db.buckets == stores[|checked|]
    ensures DMChannel(api, c.managerID).Ok? ==>
              PassesBehave(api, c.(managerDM := DMChannel(api, c.managerID).value), msgs,
                           db.managerBucketName, db.channelBucketName, checked, stores, passes)
    ensures forall k :: 0 <= k < |checked| - 1 ==> passes[k].err.Pass?
    ensures err.Pass? ==> forall k :: 0 <= k < |checked| ==> passes[k].err.Pass?
    ensures err.Fail? && checked != [] ==>
              passes[|checked| - 1].err.Fail? && err == Fail("unable to print birthdays: " + passes[|checked| - 1].err.error)
  {
    checked, passes, stores := [], [], [db.buckets];
    var mgrDM := FindDMByUserID(api, c.managerID);
    if mgrDM.Err? {
      return Fail("unable to find manager's DM: " + mgrDM.error), checked, passes, stores;
    }
    var cfg := c.(managerDM := mgrDM.value);
    var all := [now] + ticks;
    var i := 0;
    while i < |all|
      invariant 0 <= i <= |all|
      invariant checked == Scheduled(c, all[..i])
      invariant |checked| <= |Scheduled(c, all)| && checked == Scheduled(c, all)[..|checked|]
      invariant |passes| == |checked| && |stores| == |checked| + 1
      invariant stores[0] == old(db.buckets) && db.buckets == stores[|checked|]
      invariant PassesBehave(api, cfg, msgs, db.managerBucketName, db.channelBucketName, checked, stores, passes)
      invariant forall k :: 0 <= k < |checked| ==> passes[k].err.Pass?
    {
      var t := all[i];
      ScheduledStep(c, all, i);
      i := i + 1;
      if SkipTick(cfg, t) {
        continue;
      }
      ghost var next := checked + [t];
      assert next == Scheduled(c, all[..i]);
      ScheduledPrefix(c, all, i);
      var e, log := WatchedPass(db, api, cfg, msgs, t, checked, stores, passes);
      checked, passes, stores := next, passes + [log], stores + [db.buckets];
      if e.Fail? {
        return Fail("unable to print birthdays: " + e.error), checked, passes, stores;
      }
    }
    assert all[..i] == all;
    err := Pass;
  }

  /** One more instant adds its pass when it is in the window. */
  lemma ScheduledStep(c: Config, ts: seq<int>, i: int)
    requires 0 <= i < |ts|
    ensures Scheduled(c, ts[..i + 1]) == Scheduled(c, ts[..i]) + (if InWindow(c, ts[i]) then [ts[i]] else [])
  {
    assert ts[..i + 1][..i] == ts[..i];
  }

  /** The passes up to an instant are the first passes of the whole run. */
  lemma {:induction false} ScheduledPrefix(c: Config, ts: seq<int>, i: int)
    requires 0 <= i <= |ts|
    ensures |Scheduled(c, ts[..i])| <= |Scheduled(c, ts)|
    ensures Scheduled(c, ts[..i]) == Scheduled(c, ts)[..|Scheduled(c, ts[..i])|]
    decreases |ts| - i
  {
    if i < |ts| {
      ScheduledPrefix(c, ts, i + 1);
      assert ts[..i + 1][..i] == ts[..i];
    } else {
      assert ts[..i] == ts;
    }
  }
}
