/**
 * What the data-layer service hands to the outside world: calls of named remote
 * functions, notifications, the callbacks it runs, and the lists it opens
 * through the data client. Remote calls are recorded rather than made; their
 * completion handlers are separate operations of the service.
 */
module ServiceCalls {
  import opened Wrappers
  import opened DevoxxModel
  import opened ServiceHelpers

  /** Constants of the build and the device: whether notes live in the cloud, and the device uuid. */
  datatype Config = Config(useRemoteNotes: bool, deviceId: string)

  /** The keys of the persistent settings that the service reads and removes. */
  datatype SettingKey = SavedAccountId | BadgeType | BadgeSponsor | SavedConferenceId

  /** A call of a named remote function with its parameters, in order. */
  datatype RemoteCall = RemoteCall(name: string, params: seq<(string, string)>)

  /**
   * The success callback handed to the account linking: none, the service's own
   * retrieval of the user's session data, or the caller's runnable.
   */
  datatype Callback = NoCallback | UserSessionInformation | CallerRunnable

  /** What the service tells the notification service, and the caller's runnables it runs. */
  datatype Signal =
    | PreloadRatingNotifications
    | PreloadFavoriteSessions
    | PreloadingDone
    | AddRatingNotification(conferenceId: string)
    | CallerRunnableRan
    | CallerFailureRan

  /** The exceptions that can escape an operation. */
  datatype Fault = IllegalState | NullPointer

  /** The state of the favorite-counts fetch. */
  datatype ConnectState = InFlight | Succeeded | Failed

  /** A list backed by the data client under a key, in the cloud or on the device. */
  datatype StoredList = StoredList(key: string, cloud: bool)

  datatype SessionListType = FavoriteSessions | OtherSessions

  /** Which list `reloadSessionsFromCFP` hands back. */
  datatype ReturnedList = FavoredList | EmptyList

  predicate HasTalks(l: seq<Session>) {
    forall i :: 0 <= i < |l| ==> l[i].talk.Some?
  }

  /** Java string concatenation of a possibly null string. */
  function JavaString(v: Option<string>): (r: string)
    ensures v.None? ==> r == "null"
    ensures v.Some? ==> r == v.value
  {
    if v.Some? then v.value else "null"
  }

  /**
   * The device-local key of the badges a sponsor scanned at a conference: the
   * conference id, `_`, the slug as Java prints it, `_sponsor_badges_` and the
   * device id, in this order.
   */
  function SponsorBadgesKey(conferenceId: string, slug: Option<string>, deviceId: string): (r: string)
    ensures |r| == |conferenceId| + |JavaString(slug)| + |deviceId| + 17
    ensures var n := |conferenceId| + 1 + |JavaString(slug)|;
            && r[..|conferenceId| + 1] == conferenceId + "_"
            && r[|conferenceId| + 1..n] == JavaString(slug)
            && r[n..n + 16] == "_sponsor_badges_"
            && r[n + 16..] == deviceId
  {
    conferenceId + "_" + JavaString(slug) + "_sponsor_badges_" + deviceId
  }

  /**
   * Two devices keep apart the badges of the same sponsor at the same
   * conference, and so do two conferences whose ids have the same length.
   */
  lemma SponsorBadgesKeysDiffer(conferenceId: string, conferenceId': string, slug: Option<string>,
                                deviceId: string, deviceId': string)
    requires |conferenceId| == |conferenceId'| && |deviceId| == |deviceId'|
    requires conferenceId != conferenceId' || deviceId != deviceId'
    ensures SponsorBadgesKey(conferenceId, slug, deviceId) != SponsorBadgesKey(conferenceId', slug, deviceId')
  {
    var k, k' := SponsorBadgesKey(conferenceId, slug, deviceId), SponsorBadgesKey(conferenceId', slug, deviceId');
    if conferenceId != conferenceId' {
      assert k[..|conferenceId|] == conferenceId && k'[..|conferenceId|] == conferenceId';
    } else {
      assert k[|k| - |deviceId|..] == deviceId && k'[|k| - |deviceId|..] == deviceId';
    }
  }

  /** The key of a per-user list: the user's key and a suffix. */
  function UserListKey(user: User, suffix: string): (r: string)
    ensures r == user.key + suffix
  {
    user.key + suffix
  }

  /** `getCfpURL` for the selected conference. */
  function CfpUrl(c: Conference): string {
    CfpEndpoint(c.cfpUrl)
  }

  /** The fetch of the sessions or speakers of a CFP version. */
  function CfpFetch(name: string, cfpUrl: string, cfpVersion: string): RemoteCall {
    RemoteCall(name, [("cfpEndpoint", cfpUrl), ("conferenceId", cfpVersion)])
  }

  function SessionsFetch(c: Conference): RemoteCall {
    CfpFetch("sessionsV2", CfpUrl(c), c.cfpVersion)
  }

  function SpeakersFetch(c: Conference): RemoteCall {
    CfpFetch("speakers", CfpUrl(c), c.cfpVersion)
  }

  /** The fetch of the ids of the sessions a CFP account favored. */
  function FavoredFetch(c: Conference, uuid: string): RemoteCall {
    RemoteCall("favored", [("0", CfpUrl(c)), ("1", uuid)])
  }

  function SponsorsFetch(c: Conference): RemoteCall {
    RemoteCall("sponsors", [("conferenceId", c.id)])
  }

  /** The fetch of the favorite counts of all sessions. */
  function AllFavoritesFetch(c: Conference): RemoteCall {
    RemoteCall("allFavorites", [("0", CfpUrl(c))])
  }

  /**
   * The fetches the conference listener issues: sessions and speakers unless
   * theirs is in flight, then the favorite counts when they may be refreshed.
   */
  function ConferenceFetches(c: Conference, sessionsInFlight: bool, speakersInFlight: bool, refresh: bool): seq<RemoteCall> {
    (if sessionsInFlight then [] else [SessionsFetch(c)]) +
    (if speakersInFlight then [] else [SpeakersFetch(c)]) +
    (if refresh then [AllFavoritesFetch(c)] else [])
  }

  /** The call that resolves a network login to a CFP account. */
  function VerifyAccountCall(c: Conference, user: User): RemoteCall
    requires user.email.Some?
  {
    RemoteCall("verifyAccount", [("0", CfpUrl(c)), ("1", user.networkId),
                                 ("2", LoginMethodName(user.loginMethod)), ("3", user.email.value)])
  }

  /** A call of the favored-sessions family, naming the user and, for edits, the talk. */
  function FavoredCall(op: string, url: string, uuid: string, s: Session): RemoteCall
    requires s.talk.Some?
  {
    RemoteCall("favored" + op, [("0", url), ("1", uuid), ("2", s.talk.value.id)])
  }

  /**
   * The calls the favored-sessions listener makes for one change: a
   * `favoredRemove` per removed session, then a `favoredAdd` per added session,
   * each naming the user and the session's talk.
   */
  function ListenerCalls(url: string, uuid: string, removed: seq<Session>, added: seq<Session>): (r: seq<RemoteCall>)
    requires HasTalks(removed) && HasTalks(added)
    ensures |r| == |removed| + |added|
  {
    seq(|removed|, i requires 0 <= i < |removed| => FavoredCall("Remove", url, uuid, removed[i])) +
    seq(|added|, j requires 0 <= j < |added| => FavoredCall("Add", url, uuid, added[j]))
  }

  /**
   * The listener's calls, one by one: the `i`-th removed session gives a
   * `favoredRemove` of its talk, and the `j`-th added session, after all the
   * removals, a `favoredAdd` of its talk.
   */
  lemma ListenerCallsInOrder(url: string, uuid: string, removed: seq<Session>, added: seq<Session>)
    requires HasTalks(removed) && HasTalks(added)
    ensures var r := ListenerCalls(url, uuid, removed, added);
      && (forall i :: 0 <= i < |removed| ==>
            r[i].name == "favoredRemove" && r[i].params == [("0", url), ("1", uuid), ("2", removed[i].talk.value.id)])
      && (forall j :: 0 <= j < |added| ==>
            r[|removed| + j].name == "favoredAdd" &&
            r[|removed| + j].params == [("0", url), ("1", uuid), ("2", added[j].talk.value.id)])
  {
  }

  /** The number of leading sessions that have a talk. */
  function TalkedPrefix(l: seq<Session>): (n: nat)
    ensures n <= |l| && HasTalks(l[..n])
    ensures n < |l| ==> l[n].talk.None?
    ensures n == |l| <==> HasTalks(l)
  {
    if l == [] || l[0].talk.None? then 0
    else
      var n := 1 + TalkedPrefix(l[1..]);
      assert forall i :: 1 <= i < |l| ==> l[i] == l[1..][i - 1];
      n
  }

  /**
   * The calls the listener gets through for one change. Reading the talk id of
   * a session without a talk throws, so the listener stops at the first such
   * removed session, or, when every removed session has a talk, at the first
   * such added one; without one it makes all of `ListenerCalls`.
   */
  function ListenerRun(url: string, uuid: string, removed: seq<Session>, added: seq<Session>): (r: seq<RemoteCall>)
    ensures HasTalks(removed) && HasTalks(added) ==> r == ListenerCalls(url, uuid, removed, added)
    ensures !HasTalks(removed) ==> |r| < |removed|
    ensures HasTalks(removed) && !HasTalks(added) ==> |removed| <= |r| < |removed| + |added|
  {
    var nr := TalkedPrefix(removed);
    if nr < |removed| then ListenerCalls(url, uuid, removed[..nr], [])
    else
      assert removed[..nr] == removed;
      var na := TalkedPrefix(added);
      assert HasTalks(added) ==> added[..na] == added;
      ListenerCalls(url, uuid, removed, added[..na])
  }

  /** The listener fails on this change: some removed or added session has no talk. */
  predicate ListenerFails(removed: seq<Session>, added: seq<Session>) {
    !HasTalks(removed) || !HasTalks(added)
  }

  /** The calls the favored-sessions listener makes for a change: none unless it is attached. */
  function FavoredChangeCalls(attached: bool, c: Option<Conference>, uuid: string,
                              removed: seq<Session>, added: seq<Session>): seq<RemoteCall>
  {
    if attached && c.Some? then ListenerRun(CfpUrl(c.value), uuid, removed, added) else []
  }

  /**
   * Adding sessions one at a time makes the same calls as adding them at once:
   * the listener's calls for `a + b` are those for `a` followed by those for `b`.
   */
  lemma {:induction false} ListenerCallsOfAdditions(url: string, uuid: string, a: seq<Session>, b: seq<Session>)
    requires HasTalks(a) && HasTalks(b)
    ensures HasTalks(a + b)
    ensures ListenerCalls(url, uuid, [], a + b) == ListenerCalls(url, uuid, [], a) + ListenerCalls(url, uuid, [], b)
  {
    assert forall i :: 0 <= i < |a + b| ==> (a + b)[i] == if i < |a| then a[i] else b[i - |a|];
    var l := ListenerCalls(url, uuid, [], a + b);
    var r := ListenerCalls(url, uuid, [], a) + ListenerCalls(url, uuid, [], b);
    ListenerCallsInOrder(url, uuid, [], a + b);
    ListenerCallsInOrder(url, uuid, [], a);
    ListenerCallsInOrder(url, uuid, [], b);
    assert |l| == |r|;
    forall i | 0 <= i < |l| ensures l[i] == r[i] {
      if i < |a| {
        assert r[i] == ListenerCalls(url, uuid, [], a)[i];
      } else {
        assert r[i] == ListenerCalls(url, uuid, [], b)[i - |a|];
      }
    }
  }

  /**
   * The sessions found for the favored ids, in the order of the ids; an id with
   * no session is skipped.
   */
  function FoundSessions(sessions: seq<Session>, ids: seq<string>): (r: seq<Session>)
    ensures |r| <= |ids| && HasTalks(r)
    ensures forall x :: x in r ==> x in sessions
  {
    if ids == [] then []
    else
      var prev := FoundSessions(sessions, ids[..|ids| - 1]);
      assert forall k :: 0 <= k < |ids| - 1 ==> ids[..|ids| - 1][k] == ids[k];
      match FindSession(sessions, ids[|ids| - 1])
      case Some(x) => prev + [x]
      case None => prev
  }

  /** One more id adds the session it names, if any, at the end. */
  lemma FoundSessionsStep(sessions: seq<Session>, ids: seq<string>, i: nat)
    requires i < |ids|
    ensures FindSession(sessions, ids[i]).None? ==> FoundSessions(sessions, ids[..i + 1]) == FoundSessions(sessions, ids[..i])
    ensures FindSession(sessions, ids[i]).Some? ==>
              FoundSessions(sessions, ids[..i + 1]) == FoundSessions(sessions, ids[..i]) + [FindSession(sessions, ids[i]).value]
  {
    assert ids[..i + 1][..i] == ids[..i];
  }

  /** The attached listener's calls for additions `a + b` are those for `a`, then those for `b`. */
  lemma FavoredAdditionsAppend(attached: bool, c: Option<Conference>, uuid: string, a: seq<Session>, b: seq<Session>)
    requires HasTalks(a) && HasTalks(b)
    ensures HasTalks(a + b)
    ensures FavoredChangeCalls(attached, c, uuid, [], a + b) ==
              FavoredChangeCalls(attached, c, uuid, [], a) + FavoredChangeCalls(attached, c, uuid, [], b)
  {
    if attached && c.Some? {
      ListenerCallsOfAdditions(CfpUrl(c.value), uuid, a, b);
    } else {
      assert forall i :: 0 <= i < |a + b| ==> (a + b)[i] == if i < |a| then a[i] else b[i - |a|];
    }
  }

  /** Every favored id that names a session contributes that session: nothing is lost. */
  lemma {:induction false} FoundSessionsComplete(sessions: seq<Session>, ids: seq<string>)
    requires forall k :: 0 <= k < |ids| ==> FindSession(sessions, ids[k]).Some?
    ensures |FoundSessions(sessions, ids)| == |ids|
    ensures forall k :: 0 <= k < |ids| ==> FoundSessions(sessions, ids)[k] == FindSession(sessions, ids[k]).value
  {
    if ids != [] {
      var init := ids[..|ids| - 1];
      var last := ids[|ids| - 1];
      forall k | 0 <= k < |init| ensures FindSession(sessions, init[k]).Some? {
        assert init[k] == ids[k];
      }
      FoundSessionsComplete(sessions, init);
      var prev := FoundSessions(sessions, init);
      var x := FindSession(sessions, last).value;
      assert FoundSessions(sessions, ids) == prev + [x];
      forall k | 0 <= k < |ids| ensures (prev + [x])[k] == FindSession(sessions, ids[k]).value {
        if k < |init| {
          assert init[k] == ids[k];
        }
      }
    }
  }


  /** One addition extends the list and the listener's calls as if `found + [x]` had been added at once. */
  lemma AddOneFound(list0: seq<Session>, outbox0: seq<RemoteCall>, attached: bool, c: Option<Conference>, uuid: string,
                    found: seq<Session>, x: Session)
    requires HasTalks(found) && x.talk.Some?
    ensures HasTalks(found + [x])
    ensures list0 + found + [x] == list0 + (found + [x])
    ensures outbox0 + FavoredChangeCalls(attached, c, uuid, [], found) + FavoredChangeCalls(attached, c, uuid, [], [x]) ==
              outbox0 + FavoredChangeCalls(attached, c, uuid, [], found + [x])
  {
    FavoredAdditionsAppend(attached, c, uuid, found, [x]);
    var a, b := FavoredChangeCalls(attached, c, uuid, [], found), FavoredChangeCalls(attached, c, uuid, [], [x]);
    assert outbox0 + a + b == outbox0 + (a + b);
    assert list0 + found + [x] == list0 + (found + [x]);
  }

  /**
   * The loop of the `favored` success handler: every id that names a session
   * adds that session to `list`, one at a time, and every addition makes the
   * calls of the listener (if attached) on `outbox`.
   */
  method AddEachFound(list0: seq<Session>, outbox0: seq<RemoteCall>, attached: bool, c: Option<Conference>, uuid: string,
                      sessions: seq<Session>, ids: seq<string>)
    returns (list: seq<Session>, outbox: seq<RemoteCall>)
    ensures list == list0 + FoundSessions(sessions, ids)
    ensures outbox == outbox0 + FavoredChangeCalls(attached, c, uuid, [], FoundSessions(sessions, ids))
  {
    list, outbox := list0, outbox0;
    var i := 0;
    ghost var found: seq<Session> := [];
    while i < |ids|
      invariant 0 <= i <= |ids|
      invariant found == FoundSessions(sessions, ids[..i]) && HasTalks(found)
      invariant list == list0 + found
      invariant outbox == outbox0 + FavoredChangeCalls(attached, c, uuid, [], found)
    {
      FoundSessionsStep(sessions, ids, i);
      match FindSession(sessions, ids[i]) {
        case Some(x) =>
          AddOneFound(list0, outbox0, attached, c, uuid, found, x);
          list := list + [x];
          outbox := outbox + FavoredChangeCalls(attached, c, uuid, [], [x]);
          found := found + [x];
        case None =>
      }
      i := i + 1;
    }
    assert ids[..|ids|] == ids;
  }
}
