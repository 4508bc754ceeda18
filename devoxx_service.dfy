/**
 * The data-layer service of the conference application: one object holding the
 * selected conference, the linked CFP account, the fetched lists and the
 * user's lists, with one method per public operation, private step and
 * completion handler of a remote call. A remote call is recorded in `outbox`
 * when it is made; its handlers are the `On...` methods. What the service
 * tells the notification service, and the callbacks it runs, go to `signals`.
 */
module Service {
  import opened Wrappers
  import opened DevoxxModel
  import opened ServiceHelpers
  import opened ServiceCalls
  import Sponsors

  /**
   * The part of the service's state that opening an authenticated user's
   * session data touches.
   */
  datatype UserData = UserData(notes: Option<StoredList>, badges: Option<StoredList>, favoredOpen: bool,
                               retrievingFavored: bool, outbox: seq<RemoteCall>, signals: seq<Signal>)

  /**
   * `retrieveAuthenticatedUserSessionInformation` for an authenticated `user`
   * linked to the account `uuid`: the notes are opened unless already open; the
   * badges too when the conference has badges, together with one sponsors
   * fetch; the favored sessions when the conference has favorites, which the
   * first time fetches them and preloads their notifications.
   */
  function SessionInformation(d: UserData, c: Conference, user: User, uuid: string, remoteNotes: bool): UserData {
    FavoredOpened(ListsOpened(d, c, user, remoteNotes), c, uuid)
  }

  /** The notes, and with badges the badges and the sponsors, opened for `user`. */
  function ListsOpened(d: UserData, c: Conference, user: User, remoteNotes: bool): UserData {
    d.(notes := if d.notes.Some? then d.notes else Some(StoredList(UserListKey(user, "_notes"), remoteNotes)),
       badges := if !c.myBadgeActive || d.badges.Some? then d.badges
                 else Some(StoredList(UserListKey(user, "_badges"), remoteNotes)),
       outbox := d.outbox + (if c.myBadgeActive then [SponsorsFetch(c)] else []))
  }

  /** The favored sessions handed out; the first time they are fetched and their notifications preloaded. */
  function FavoredOpened(d: UserData, c: Conference, uuid: string): UserData {
    var favored := c.hasFavorite && !d.favoredOpen;
    d.(favoredOpen := d.favoredOpen || c.hasFavorite,
       retrievingFavored := d.retrievingFavored || favored,
       outbox := d.outbox + (if favored then [FavoredFetch(c, uuid)] else []),
       signals := d.signals + (if favored then [PreloadFavoriteSessions] else []))
  }

  /**
   * The user data after the linking's success callback `cb` has run for the
   * account `uuid`: the caller's runnable is signalled; the service's own
   * callback opens the session data when the user is authenticated.
   */
  function AfterCallback(d: UserData, cb: Callback, c: Option<Conference>, user: Option<User>, uuid: string,
                         remoteNotes: bool): UserData
  {
    match cb
    case NoCallback => d
    case CallerRunnable => d.(signals := d.signals + [CallerRunnableRan])
    case UserSessionInformation =>
      if c.Some? && user.Some? && uuid != "" then SessionInformation(d, c.value, user.value, uuid, remoteNotes) else d
  }

  /**
   * Opening the session data again changes nothing but the outbox, which gets
   * one more sponsors fetch when the conference has badges: the lists are
   * opened, and the favored sessions fetched, once.
   */
  lemma SessionInformationOnce(d: UserData, c: Conference, user: User, uuid: string, remoteNotes: bool)
    ensures var once := SessionInformation(d, c, user, uuid, remoteNotes);
      SessionInformation(once, c, user, uuid, remoteNotes) ==
        once.(outbox := once.outbox + (if c.myBadgeActive then [SponsorsFetch(c)] else []))
  {
  }

  /**
   * The part of the service's state that linking a CFP account touches: the
   * account uuid, whether the favored listener is attached, the favored
   * sessions, the sponsor badges, the settings and the callbacks of the
   * outstanding `verifyAccount` calls.
   */
  datatype Account = Account(uuid: string, attached: bool, favored: seq<Session>, sponsorBadges: Option<StoredList>,
                             settings: map<SettingKey, string>, pending: seq<Callback>)

  /**
   * The account and user data after `clearCfpAccount`: no uuid, no favored
   * sessions, no user lists, no account or badge settings. Setting the uuid to
   * "" detaches the listener first, so emptying the favored list sends removals
   * only if the uuid already was "".
   */
  function ClearedAccount(a: Account, d: UserData, c: Option<Conference>): (Account, UserData)
  {
    var attached := a.attached && a.uuid == "";
    (a.(uuid := "", attached := attached, favored := [], sponsorBadges := None,
        settings := a.settings - {SavedAccountId, BadgeType, BadgeSponsor}),
     d.(notes := None, badges := None, favoredOpen := false,
        outbox := d.outbox + FavoredChangeCalls(attached, c, "", a.favored, [])))
  }

  /**
   * The account and user data after `loadCfpAccount` for `user` with callback
   * `cb`: nothing changes when an account is linked; a saved account id is
   * reused; a custom login is its own account, saved, and the callback runs; any
   * other login gets one `verifyAccount` call, whose callback waits for its
   * success. Without a conference that call cannot be made (see `LinkFault`).
   */
  function CfpLinked(a: Account, d: UserData, user: User, cb: Callback, c: Option<Conference>,
                     authenticated: Option<User>, remoteNotes: bool): (Account, UserData)
    requires user.email.Some?
  {
    if a.uuid != "" then (a, d)
    else if SavedAccountId in a.settings then (a.(uuid := a.settings[SavedAccountId]), d)
    else if user.loginMethod == Custom then
      var id := user.networkId;
      (a.(uuid := id, settings := a.settings[SavedAccountId := id]), AfterCallback(d, cb, c, authenticated, id, remoteNotes))
    else if c.None? then (a, d)
    else (a.(pending := a.pending + [cb]), d.(outbox := d.outbox + [VerifyAccountCall(c.value, user)]))
  }

  /** `loadCfpAccount` throws exactly when it has to make the `verifyAccount` call without a conference. */
  predicate LinkFault(a: Account, user: User, c: Option<Conference>)
  {
    a.uuid == "" && SavedAccountId !in a.settings && user.loginMethod != Custom && c.None?
  }

  /**
   * The account and user data after a switch to conference `c`: the account is
   * cleared and a signed-in user is linked again, with the session data as
   * callback.
   */
  function SwitchedAccount(a: Account, d: UserData, c: Conference, user: Option<User>, remoteNotes: bool)
    : (Account, UserData)
    requires user.Some? ==> user.value.email.Some?
  {
    var (a1, d1) := ClearedAccount(a, d, Some(c));
    if user.None? then (a1, d1)
    else CfpLinked(a1, d1, user.value, UserSessionInformation, Some(c), user, remoteNotes)
  }

  /**
   * The account and user data after the first conference is selected: a
   * signed-in user is linked, without a callback.
   */
  function FirstLinked(a: Account, d: UserData, c: Conference, user: Option<User>, remoteNotes: bool): (Account, UserData)
    requires user.Some? ==> user.value.email.Some?
  {
    if user.None? then (a, d) else CfpLinked(a, d, user.value, NoCallback, Some(c), user, remoteNotes)
  }

  /**
   * A switch never keeps the old account: the uuid, the favored sessions, the
   * badges and the badge settings are gone; a custom login is linked to its own
   * id, and anyone else stays unlinked until `verifyAccount` succeeds.
   */
  lemma SwitchedAccountForgets(a: Account, d: UserData, c: Conference, user: Option<User>, remoteNotes: bool)
    requires user.Some? ==> user.value.email.Some?
    ensures var (a1, d1) := SwitchedAccount(a, d, c, user, remoteNotes);
      && a1.favored == [] && a1.sponsorBadges.None? && BadgeType !in a1.settings && BadgeSponsor !in a1.settings
      && (user.Some? && user.value.loginMethod == Custom ==>
            a1.uuid == user.value.networkId && a1.settings[SavedAccountId] == user.value.networkId)
      && (user.None? || user.value.loginMethod != Custom ==>
            a1.uuid == "" && SavedAccountId !in a1.settings && d1.notes.None? && d1.badges.None? && !d1.favoredOpen)
  {
  }

  /**
   * The first conference keeps a linked account and its user data, and links
   * a signed-in user to a saved account id without any call.
   */
  lemma FirstLinkedKeeps(a: Account, d: UserData, c: Conference, user: Option<User>, remoteNotes: bool)
    requires user.Some? ==> user.value.email.Some?
    ensures a.uuid != "" ==> FirstLinked(a, d, c, user, remoteNotes) == (a, d)
    ensures user.Some? && a.uuid == "" && SavedAccountId in a.settings ==>
              FirstLinked(a, d, c, user, remoteNotes) == (a.(uuid := a.settings[SavedAccountId]), d)
    ensures FirstLinked(a, d, c, user, remoteNotes).1.signals == d.signals
  {
  }

  class DevoxxService {
    const config: Config

    var conference: Option<Conference>
    /** The user signed in with the cloud login service. */
    var authenticatedUser: Option<User>
    /** The uuid of the linked CFP account; "" when none is linked. */
    var cfpUserUuid: string
    var ready: bool

    var sessions: seq<Session>
    var retrievingSessions: bool
    var speakers: seq<Speaker>
    var retrievingSpeakers: bool
    var tracks: seq<Track>
    var sessionTypes: seq<SessionType>
    var exhibitionMaps: seq<Floor>

    var notes: Option<StoredList>
    var badges: Option<StoredList>
    var sponsorBadges: Option<StoredList>

    /** The favored sessions have been handed out (`favoredSessions` is not null). */
    var favoredOpen: bool
    /** The internal list of favored sessions that the views edit. */
    var internalFavoredSessions: seq<Session>
    var retrievingFavoriteSessions: bool
    /** A change listener of the favored list exists, and it is attached to the list. */
    var favoredListenerCreated: bool
    var favoredListenerAttached: bool

    /** The state of the last favorite-counts fetch, and the counts merged so far. */
    var allFavoritesState: ConnectState
    var favorites: seq<Favorite>

    /** The persistent settings, and the conference ids with a scheduled rating notification. */
    var settings: map<SettingKey, string>
    var ratingNotified: set<string>
    /** The reload marker file that a silent push notification leaves behind exists. */
    var reloadFile: bool

    /** The success callbacks of the `verifyAccount` calls still outstanding. */
    var pendingVerifications: seq<Callback>
    var outbox: seq<RemoteCall>
    var signals: seq<Signal>

    /**
     * What holds between operations: a signed-in user has an email (one without
     * is signed out at once), the favored-sessions listener is attached only once
     * it exists and a conference is selected, and account verifications are only
     * outstanding once a conference is selected.
     */
    predicate Valid()
      reads this`authenticatedUser, this`favoredListenerAttached, this`favoredListenerCreated, this`conference,
            this`pendingVerifications
    {
      && (authenticatedUser.Some? ==> authenticatedUser.value.email.Some?)
      && (favoredListenerAttached ==> favoredListenerCreated && conference.Some?)
      && (pendingVerifications != [] ==> conference.Some?)
    }

    /** The user data part of the state. */
    function UserDataOf(): UserData
      reads this`notes, this`badges, this`favoredOpen, this`retrievingFavoriteSessions, this`outbox, this`signals
    {
      UserData(notes, badges, favoredOpen, retrievingFavoriteSessions, outbox, signals)
    }

    /** The account part of the state. */
    function AccountOf(): Account
      reads this`cfpUserUuid, this`favoredListenerAttached, this`internalFavoredSessions, this`sponsorBadges,
            this`settings, this`pendingVerifications
    {
      Account(cfpUserUuid, favoredListenerAttached, internalFavoredSessions, sponsorBadges, settings, pendingVerifications)
    }

    /** `isAuthenticated`: signed in with the login service and linked to a CFP account. */
    predicate IsAuthenticated()
      reads this`authenticatedUser, this`cfpUserUuid
    {
      authenticatedUser.Some? && cfpUserUuid != ""
    }

    /* -------------------------------------------------------------------- */
    /* Start-up                                                             */
    /* -------------------------------------------------------------------- */

    /**
     * The constructor: nothing is selected or linked and the favorite counts may
     * be fetched. A saved conference id in the current (numeric) format is
     * fetched; one in the old format clears the account and is removed.
     */
    constructor (config: Config, settings: map<SettingKey, string>, ratingNotified: set<string>,
                 user: Option<User>, reloadFile: bool)
      requires user.Some? ==> user.value.email.Some?
      ensures Valid() && conference.None? && cfpUserUuid == "" && authenticatedUser == user
      ensures this.ratingNotified == ratingNotified
      ensures this.config == config && allFavoritesState == Succeeded && !ready
      ensures SavedConferenceId !in settings ==> this.settings == settings && outbox == []
      ensures SavedConferenceId in settings && IsNumber(settings[SavedConferenceId]) ==>
                this.settings == settings && outbox == [RemoteCall("conference", [("id", settings[SavedConferenceId])])]
      ensures SavedConferenceId in settings && !IsNumber(settings[SavedConferenceId]) ==>
                this.settings == settings - {SavedConferenceId, SavedAccountId, BadgeType, BadgeSponsor} && outbox == []
      ensures signals == [] && pendingVerifications == []
    {
      this.config := config;
      conference := None;
      authenticatedUser := user;
      cfpUserUuid := "";
      ready := false;
      sessions, retrievingSessions, speakers, retrievingSpeakers := [], false, [], false;
      tracks, sessionTypes, exhibitionMaps := [], [], [];
      notes, badges, sponsorBadges := None, None, None;
      favoredOpen, internalFavoredSessions, retrievingFavoriteSessions := false, [], false;
      favoredListenerCreated, favoredListenerAttached := false, false;
      allFavoritesState, favorites := Succeeded, [];
      this.settings := settings;
      this.ratingNotified := ratingNotified;
      this.reloadFile := reloadFile;
      pendingVerifications, outbox, signals := [], [], [];
      new;
      LoadSavedConference();
    }

    /**
     * The constructor's use of the saved conference id: one in the current
     * (numeric) format is fetched; one in the old format clears the account and
     * is removed.
     */
    method LoadSavedConference()
      requires Valid() && conference.None? && cfpUserUuid == ""
      modifies this`ready, this`outbox, this`cfpUserUuid, this`favoredListenerAttached, this`notes, this`badges,
               this`sponsorBadges, this`favoredOpen, this`internalFavoredSessions, this`settings
      ensures Valid() && cfpUserUuid == ""
      ensures SavedConferenceId !in old(settings) ==> settings == old(settings) && outbox == old(outbox) && ready == old(ready)
      ensures SavedConferenceId in old(settings) && IsNumber(old(settings)[SavedConferenceId]) ==>
                settings == old(settings) && outbox == old(outbox) + [RemoteCall("conference", [("id", old(settings)[SavedConferenceId])])] &&
                !ready
      ensures SavedConferenceId in old(settings) && !IsNumber(old(settings)[SavedConferenceId]) ==>
                settings == old(settings) - {SavedConferenceId, SavedAccountId, BadgeType, BadgeSponsor} && outbox == old(outbox) &&
                ready == old(ready)
    {
      if SavedConferenceId in settings {
        if IsNumber(settings[SavedConferenceId]) {
          RetrieveConference(settings[SavedConferenceId]);
        } else {
          ClearCfpAccount();
          settings := settings - {SavedConferenceId};
        }
      }
    }

    /* -------------------------------------------------------------------- */
    /* The CFP account and the favored-sessions listener                    */
    /* -------------------------------------------------------------------- */

    /**
     * Setting `cfpUserUuid`. Its change listener runs only when the value
     * changes, and detaches the favored-sessions listener when it becomes "".
     */
    method SetCfpUserUuid(v: string)
      modifies this`cfpUserUuid, this`favoredListenerAttached
      ensures cfpUserUuid == v
      ensures favoredListenerAttached == (old(favoredListenerAttached) && (v != "" || old(cfpUserUuid) == ""))
    {
      var changed := cfpUserUuid != v;
      cfpUserUuid := v;
      if changed && v == "" {
        favoredListenerAttached := false;
      }
    }

    /**
     * An edit of the favored list: the sessions at `from..to` are replaced by
     * `added`. The attached listener sends the removals first, then the
     * additions; a session without a talk (a break) makes it throw a
     * NullPointerException part-way. The list keeps the edit either way, since
     * the list reports a listener's exception to the thread's uncaught-exception
     * handler instead of to the caller; `fault` is that exception.
     */
    method ChangeFavored(from: nat, to: nat, added: seq<Session>) returns (fault: Option<Fault>)
      requires Valid() && from <= to <= |internalFavoredSessions|
      modifies this`internalFavoredSessions, this`outbox
      ensures Valid()
      ensures internalFavoredSessions == old(internalFavoredSessions[..from]) + added + old(internalFavoredSessions[to..])
      ensures outbox == old(outbox) + FavoredChangeCalls(favoredListenerAttached, conference, cfpUserUuid, old(internalFavoredSessions[from..to]), added)
      ensures fault == if favoredListenerAttached && ListenerFails(old(internalFavoredSessions[from..to]), added)
                       then Some(NullPointer) else None
      ensures favoredListenerAttached && fault.None? ==> |outbox| == |old(outbox)| + (to - from) + |added|
    {
      var l := internalFavoredSessions;
      var calls := FavoredChangeCalls(favoredListenerAttached, conference, cfpUserUuid, l[from..to], added);
      fault := if favoredListenerAttached && ListenerFails(l[from..to], added) then Some(NullPointer) else None;
      internalFavoredSessions := l[..from] + added + l[to..];
      outbox := outbox + calls;
    }

    /**
     * `clearCfpAccount`: unlink the CFP account, forget the user's lists, empty
     * the favored sessions and remove the account and badge settings. Setting
     * the uuid to "" detaches the listener first, so emptying the list makes
     * remove calls only when the uuid already was "".
     */
    method ClearCfpAccount()
      requires Valid()
      modifies this`cfpUserUuid, this`favoredListenerAttached, this`notes, this`badges, this`sponsorBadges,
               this`favoredOpen, this`internalFavoredSessions, this`outbox, this`settings
      ensures Valid() && !IsAuthenticated()
      ensures (AccountOf(), UserDataOf()) == ClearedAccount(old(AccountOf()), old(UserDataOf()), conference)
    {
      UnlinkAccount();
      EmptyFavored();
    }

    /** The first half of `clearCfpAccount`: the uuid becomes "" and the user's lists are forgotten. */
    method UnlinkAccount()
      requires Valid()
      modifies this`cfpUserUuid, this`favoredListenerAttached, this`notes, this`badges, this`sponsorBadges, this`favoredOpen
      ensures Valid()
      ensures AccountOf() == old(AccountOf()).(uuid := "", sponsorBadges := None,
                                               attached := old(favoredListenerAttached) && old(cfpUserUuid) == "")
      ensures UserDataOf() == old(UserDataOf()).(notes := None, badges := None, favoredOpen := false)
    {
      SetCfpUserUuid("");
      notes, badges, sponsorBadges := None, None, None;
      favoredOpen := false;
    }

    /** The second half of `clearCfpAccount`: the favored list is emptied and the account and badge settings removed. */
    method EmptyFavored()
      requires Valid()
      modifies this`internalFavoredSessions, this`outbox, this`settings
      ensures Valid()
      ensures AccountOf() == old(AccountOf()).(favored := [], settings := old(settings) - {SavedAccountId, BadgeType, BadgeSponsor})
      ensures UserDataOf() == old(UserDataOf()).(outbox := old(outbox) +
                FavoredChangeCalls(favoredListenerAttached, conference, cfpUserUuid, old(internalFavoredSessions), []))
    {
      assert internalFavoredSessions[0..|internalFavoredSessions|] == internalFavoredSessions;
      var _ := ChangeFavored(0, |internalFavoredSessions|, []);
      settings := settings - {SavedAccountId, BadgeType, BadgeSponsor};
    }

    /* -------------------------------------------------------------------- */
    /* The user's lists                                                     */
    /* -------------------------------------------------------------------- */

    /**
     * `retrieveNotes`: refused without an authenticated user when notes are kept
     * remotely; otherwise the list is opened once, in the cloud or on the device,
     * under the signed-in user's key (a missing user is dereferenced there).
     */
    method RetrieveNotes() returns (fault: Option<Fault>)
      modifies this`notes
      ensures IsAuthenticated() ==> fault.None?
      ensures fault == Some(IllegalState) <==> !IsAuthenticated() && config.useRemoteNotes
      ensures fault == Some(NullPointer) <==>
                (IsAuthenticated() || !config.useRemoteNotes) && old(notes).None? && authenticatedUser.None?
      ensures fault.Some? || old(notes).Some? ==> notes == old(notes)
      ensures fault.None? && old(notes).None? ==>
                notes == Some(StoredList(UserListKey(authenticatedUser.value, "_notes"), config.useRemoteNotes))
    {
      if !IsAuthenticated() && config.useRemoteNotes {
        return Some(IllegalState);
      }
      if notes.None? {
        if authenticatedUser.None? {
          return Some(NullPointer);
        }
        notes := Some(StoredList(UserListKey(authenticatedUser.value, "_notes"), config.useRemoteNotes));
      }
      fault := None;
    }

    /** `retrieveBadges`: as `retrieveNotes`, for the badges list. */
    method RetrieveBadges() returns (fault: Option<Fault>)
      modifies this`badges
      ensures IsAuthenticated() ==> fault.None?
      ensures fault == Some(IllegalState) <==> !IsAuthenticated() && config.useRemoteNotes
      ensures fault == Some(NullPointer) <==>
                (IsAuthenticated() || !config.useRemoteNotes) && old(badges).None? && authenticatedUser.None?
      ensures fault.Some? || old(badges).Some? ==> badges == old(badges)
      ensures fault.None? && old(badges).None? ==>
                badges == Some(StoredList(UserListKey(authenticatedUser.value, "_badges"), config.useRemoteNotes))
    {
      if !IsAuthenticated() && config.useRemoteNotes {
        return Some(IllegalState);
      }
      if badges.None? {
        if authenticatedUser.None? {
          return Some(NullPointer);
        }
        badges := Some(StoredList(UserListKey(authenticatedUser.value, "_badges"), config.useRemoteNotes));
      }
      fault := None;
    }

    /**
     * `retrieveSponsorBadges`: opened once, on the device, under the conference,
     * the sponsor's slug and the device uuid.
     */
    method RetrieveSponsorBadges(sponsor: Sponsors.SponsorFields) returns (fault: Option<Fault>)
      modifies this`sponsorBadges
      ensures old(sponsorBadges).Some? ==> fault.None? && sponsorBadges == old(sponsorBadges)
      ensures old(sponsorBadges).None? && conference.None? ==> fault == Some(NullPointer) && sponsorBadges.None?
      ensures old(sponsorBadges).None? && conference.Some? ==>
                fault.None? &&
                sponsorBadges == Some(StoredList(SponsorBadgesKey(conference.value.id, sponsor.slug, config.deviceId), false))
    {
      fault := None;
      if sponsorBadges.None? {
        if conference.None? {
          return Some(NullPointer);
        }
        sponsorBadges := Some(StoredList(SponsorBadgesKey(conference.value.id, sponsor.slug, config.deviceId), false));
      }
    }

    /** `logoutSponsor`: the next retrieval opens the list afresh, for the sponsor then given. */
    method LogoutSponsor()
      modifies this`sponsorBadges
      ensures sponsorBadges.None?
    {
      sponsorBadges := None;
    }

    /** `retrieveSponsors`: one `sponsors` call for the selected conference. */
    method RetrieveSponsors() returns (fault: Option<Fault>)
      modifies this`outbox
      ensures conference.None? ==> fault == Some(NullPointer) && outbox == old(outbox)
      ensures conference.Some? ==> fault.None? && outbox == old(outbox) + [SponsorsFetch(conference.value)]
    {
      if conference.None? {
        return Some(NullPointer);
      }
      outbox := outbox + [SponsorsFetch(conference.value)];
      fault := None;
    }

    /* -------------------------------------------------------------------- */
    /* Favored sessions                                                     */
    /* -------------------------------------------------------------------- */

    /**
     * `internalRetrieveFavoredSessions`: refused without an authenticated user;
     * raises the fetching flag, then issues the `favored` fetch, whose endpoint
     * lookup fails without a conference.
     */
    method InternalRetrieveFavoredSessions() returns (fault: Option<Fault>)
      modifies this`retrievingFavoriteSessions, this`outbox
      ensures !IsAuthenticated() ==> fault == Some(IllegalState) && unchanged(this)
      ensures IsAuthenticated() ==> retrievingFavoriteSessions
      ensures IsAuthenticated() && conference.None? ==> fault == Some(NullPointer) && outbox == old(outbox)
      ensures IsAuthenticated() && conference.Some? ==> fault.None? && outbox == old(outbox) + [FavoredFetch(conference.value, cfpUserUuid)]
    {
      if !IsAuthenticated() {
        return Some(IllegalState);
      }
      retrievingFavoriteSessions := true;
      if conference.None? {
        return Some(NullPointer);
      }
      outbox := outbox + [FavoredFetch(conference.value, cfpUserUuid)];
      fault := None;
    }

    /**
     * `retrieveFavoredSessions`: refused without an authenticated user; the first
     * call fetches the list and starts the favorite-session notifications, later
     * calls hand back the same list.
     */
    method RetrieveFavoredSessions() returns (fault: Option<Fault>)
      requires Valid()
      modifies this`retrievingFavoriteSessions, this`outbox, this`favoredOpen, this`signals
      ensures Valid()
      ensures !IsAuthenticated() ==> fault == Some(IllegalState) && unchanged(this)
      ensures IsAuthenticated() && old(favoredOpen) ==> fault.None? && unchanged(this)
      ensures IsAuthenticated() && !old(favoredOpen) && conference.None? ==>
                fault == Some(NullPointer) && retrievingFavoriteSessions && !favoredOpen &&
                outbox == old(outbox) && signals == old(signals)
      ensures IsAuthenticated() && !old(favoredOpen) && conference.Some? ==>
                fault.None? && retrievingFavoriteSessions && favoredOpen &&
                outbox == old(outbox) + [FavoredFetch(conference.value, cfpUserUuid)] && signals == old(signals) + [PreloadFavoriteSessions]
    {
      if !IsAuthenticated() {
        return Some(IllegalState);
      }
      fault := None;
      if !favoredOpen {
        fault := InternalRetrieveFavoredSessions();
        if fault.Some? {
          return;
        }
        favoredOpen := true;
        signals := signals + [PreloadFavoriteSessions];
      }
    }

    /** `finishNotificationsPreloading`: done once neither sessions nor favored sessions are being fetched. */
    method FinishNotificationsPreloading()
      modifies this`signals
      ensures signals == old(signals) + (if !retrievingSessions && !retrievingFavoriteSessions then [PreloadingDone] else [])
    {
      if !retrievingSessions && !retrievingFavoriteSessions {
        signals := signals + [PreloadingDone];
      }
    }

    /**
     * Success of the `favored` fetch: each returned id that names a session adds
     * that session to the favored list, one at a time, as seen by a listener
     * still attached from an earlier fetch; then a listener is attached, the
     * service is ready, the flag is lowered and the preloading may finish.
     */
    method OnFavoredSucceeded(ids: seq<string>)
      requires Valid() && conference.Some?
      modifies this`internalFavoredSessions, this`outbox, this`favoredListenerCreated, this`favoredListenerAttached,
               this`ready, this`retrievingFavoriteSessions, this`signals
      ensures Valid() && favoredListenerCreated && favoredListenerAttached && ready && !retrievingFavoriteSessions
      ensures internalFavoredSessions == old(internalFavoredSessions) + FoundSessions(sessions, ids)
      ensures outbox == old(outbox) +
                (if old(favoredListenerAttached) then ListenerCalls(CfpUrl(conference.value), cfpUserUuid, [], FoundSessions(sessions, ids)) else [])
      ensures signals == old(signals) + (if retrievingSessions then [] else [PreloadingDone])
    {
      AddFoundSessions(ids);
      AttachFavoredListener();
    }

    /** A new listener is attached to the favored list, the service is ready, and the preloading may be done. */
    method AttachFavoredListener()
      requires Valid() && conference.Some?
      modifies this`favoredListenerCreated, this`favoredListenerAttached, this`ready, this`retrievingFavoriteSessions,
               this`signals
      ensures Valid() && favoredListenerCreated && favoredListenerAttached && ready && !retrievingFavoriteSessions
      ensures signals == old(signals) + (if retrievingSessions then [] else [PreloadingDone])
    {
      favoredListenerCreated, favoredListenerAttached := true, true;
      ready := true;
      retrievingFavoriteSessions := false;
      FinishNotificationsPreloading();
    }

    /** The sessions found for the ids are added to the favored list one at a time. */
    method AddFoundSessions(ids: seq<string>)
      requires Valid()
      modifies this`internalFavoredSessions, this`outbox
      ensures Valid()
      ensures internalFavoredSessions == old(internalFavoredSessions) + FoundSessions(sessions, ids)
      ensures outbox == old(outbox) +
                (if favoredListenerAttached then ListenerCalls(CfpUrl(conference.value), cfpUserUuid, [], FoundSessions(sessions, ids)) else [])
    {
      internalFavoredSessions, outbox :=
        AddEachFound(internalFavoredSessions, outbox, favoredListenerAttached, conference, cfpUserUuid, sessions, ids);
    }

    /** Failure of the `favored` fetch only lowers the flag. */
    method OnFavoredFailed()
      modifies this`retrievingFavoriteSessions
      ensures !retrievingFavoriteSessions
    {
      retrievingFavoriteSessions := false;
    }

    /**
     * `reloadSessionsFromCFP`: for the favorites list, forget the handed-out list;
     * when a listener exists, detach it before emptying the list, so that no
     * remove call is made, and fetch the favored sessions again.
     */
    method ReloadSessionsFromCfp(t: SessionListType) returns (list: ReturnedList, fault: Option<Fault>)
      requires Valid()
      modifies this`favoredOpen, this`favoredListenerAttached, this`internalFavoredSessions,
               this`retrievingFavoriteSessions, this`outbox, this`signals
      ensures Valid()
      ensures conference.None? || t == OtherSessions ==> list == EmptyList && fault.None? && unchanged(this)
      ensures conference.Some? && t == FavoriteSessions && !favoredListenerCreated ==>
                list == EmptyList && fault.None? && !favoredOpen &&
                unchanged(this`favoredListenerAttached, this`internalFavoredSessions, this`retrievingFavoriteSessions,
                          this`outbox, this`signals)
      ensures conference.Some? && t == FavoriteSessions && favoredListenerCreated ==>
                !favoredListenerAttached && internalFavoredSessions == [] &&
                fault == (if IsAuthenticated() then None else Some(IllegalState)) &&
                list == (if IsAuthenticated() then FavoredList else EmptyList) &&
                favoredOpen == IsAuthenticated() &&
                retrievingFavoriteSessions == (old(retrievingFavoriteSessions) || IsAuthenticated()) &&
                outbox == old(outbox) + (if IsAuthenticated() then [FavoredFetch(conference.value, cfpUserUuid)] else []) &&
                signals == old(signals) + (if IsAuthenticated() then [PreloadFavoriteSessions] else [])
    {
      list, fault := EmptyList, None;
      if conference.Some? && t == FavoriteSessions {
        favoredOpen := false;
        if favoredListenerCreated {
          favoredListenerAttached := false;
          var _ := ChangeFavored(0, |internalFavoredSessions|, []);
          fault := RetrieveFavoredSessions();
          if fault.None? {
            list := FavoredList;
          }
        }
      }
    }

    /* -------------------------------------------------------------------- */
    /* Sessions and speakers                                                */
    /* -------------------------------------------------------------------- */

    /**
     * `retrieveSessionsInternal`: while a fetch is in flight nothing happens;
     * otherwise the flag is raised, the list emptied, one `sessionsV2` fetch
     * issued, and rating notifications are preloaded for an unauthenticated user.
     */
    method RetrieveSessionsInternal()
      requires !retrievingSessions ==> conference.Some?
      modifies this`retrievingSessions, this`sessions, this`outbox, this`signals
      ensures retrievingSessions
      ensures sessions == if old(retrievingSessions) then old(sessions) else []
      ensures outbox == old(outbox) + (if old(retrievingSessions) then [] else [SessionsFetch(conference.value)])
      ensures signals == old(signals) + (if old(retrievingSessions) || IsAuthenticated() then [] else [PreloadRatingNotifications])
    {
      if retrievingSessions {
        return;
      }
      retrievingSessions := true;
      sessions := [];
      outbox := outbox + [SessionsFetch(conference.value)];
      if !IsAuthenticated() {
        signals := signals + [PreloadRatingNotifications];
      }
    }

    /**
     * `retrieveAuthenticatedUserSessionInformation`: for an authenticated user,
     * open the notes, the badges and the sponsors when the conference has badges,
     * and the favored sessions when it has favorites; none of these fails here.
     */
    method RetrieveAuthenticatedUserSessionInformation()
      requires Valid() && conference.Some?
      modifies this`notes, this`badges, this`outbox, this`retrievingFavoriteSessions, this`favoredOpen, this`signals
      ensures Valid()
      ensures !IsAuthenticated() ==> unchanged(this)
      ensures IsAuthenticated() ==>
                UserDataOf() == SessionInformation(old(UserDataOf()), conference.value, authenticatedUser.value,
                                                   cfpUserUuid, config.useRemoteNotes)
    {
      if IsAuthenticated() {
        OpenUserLists();
        OpenFavored();
      }
    }

    /** The list part of `retrieveAuthenticatedUserSessionInformation`. */
    method OpenUserLists()
      requires conference.Some? && IsAuthenticated()
      modifies this`notes, this`badges, this`outbox
      ensures UserDataOf() == ListsOpened(old(UserDataOf()), conference.value, authenticatedUser.value, config.useRemoteNotes)
    {
      var f := RetrieveNotes();
      if conference.value.myBadgeActive {
        f := RetrieveBadges();
        f := RetrieveSponsors();
      }
    }

    /** The favored-sessions part of `retrieveAuthenticatedUserSessionInformation`. */
    method OpenFavored()
      requires Valid() && conference.Some? && IsAuthenticated()
      modifies this`retrievingFavoriteSessions, this`outbox, this`favoredOpen, this`signals
      ensures Valid()
      ensures UserDataOf() == FavoredOpened(old(UserDataOf()), conference.value, cfpUserUuid)
    {
      if conference.value.hasFavorite {
        var f := RetrieveFavoredSessions();
      }
    }

    /** `addLocalNotification`: the rating notification of a conference is scheduled once. */
    method AddLocalNotification()
      requires conference.Some?
      modifies this`signals, this`ratingNotified
      ensures ratingNotified == old(ratingNotified) + {conference.value.id}
      ensures signals == old(signals) +
                (if conference.value.id in old(ratingNotified) then [] else [AddRatingNotification(conference.value.id)])
    {
      var id := conference.value.id;
      if id !in ratingNotified {
        signals := signals + [AddRatingNotification(id)];
        ratingNotified := ratingNotified + {id};
      }
    }

    /**
     * Success of the `sessionsV2` fetch: the list holds the fetched sessions, the
     * flag is lowered, the user's session data is opened, the preloading may
     * finish and the conference's rating notification is scheduled once. An
     * authenticated user's favored sessions still being fetched hold back the
     * end of the preloading. `sessionData` is the user data once the session data
     * is opened, before the two signals that follow.
     */
    method OnSessionsSucceeded(fetched: seq<Session>) returns (ghost sessionData: UserData)
      requires Valid() && conference.Some?
      modifies this`retrievingSessions, this`sessions, this`notes, this`badges, this`outbox,
               this`retrievingFavoriteSessions, this`favoredOpen, this`signals, this`ratingNotified
      ensures Valid() && !retrievingSessions && sessions == fetched
      ensures sessionData == if IsAuthenticated()
                        then SessionInformation(old(UserDataOf()), conference.value, authenticatedUser.value,
                                                cfpUserUuid, config.useRemoteNotes)
                        else old(UserDataOf())
      ensures UserDataOf() ==
                sessionData.(signals := sessionData.signals + (if retrievingFavoriteSessions then [] else [PreloadingDone]) +
                          (if conference.value.id in old(ratingNotified) then [] else [AddRatingNotification(conference.value.id)]))
      ensures ratingNotified == old(ratingNotified) + {conference.value.id}
      ensures retrievingFavoriteSessions ==
                (old(retrievingFavoriteSessions) || (IsAuthenticated() && conference.value.hasFavorite && !old(favoredOpen)))
      ensures signals == old(signals) +
                (if IsAuthenticated() && conference.value.hasFavorite && !old(favoredOpen) then [PreloadFavoriteSessions] else []) +
                (if retrievingFavoriteSessions then [] else [PreloadingDone]) +
                (if conference.value.id in old(ratingNotified) then [] else [AddRatingNotification(conference.value.id)])
    {
      retrievingSessions := false;
      sessions := fetched;
      RetrieveAuthenticatedUserSessionInformation();
      sessionData := UserDataOf();
      AfterSessionsLoaded();
    }

    /** The end of the `sessionsV2` success: the preloading may finish, and the rating notification is scheduled once. */
    method AfterSessionsLoaded()
      requires conference.Some?
      modifies this`signals, this`ratingNotified
      ensures ratingNotified == old(ratingNotified) + {conference.value.id}
      ensures signals == old(signals) + (if !retrievingSessions && !retrievingFavoriteSessions then [PreloadingDone] else []) +
                (if conference.value.id in old(ratingNotified) then [] else [AddRatingNotification(conference.value.id)])
    {
      FinishNotificationsPreloading();
      AddLocalNotification();
    }

    /** Failure of the `sessionsV2` fetch only lowers the flag, so that it can be issued again. */
    method OnSessionsFailed()
      modifies this`retrievingSessions
      ensures !retrievingSessions
    {
      retrievingSessions := false;
    }

    /** `retrieveSpeakersInternal`: the same single-flight guard, for the speakers. */
    method RetrieveSpeakersInternal()
      requires !retrievingSpeakers ==> conference.Some?
      modifies this`retrievingSpeakers, this`speakers, this`outbox
      ensures retrievingSpeakers
      ensures speakers == if old(retrievingSpeakers) then old(speakers) else []
      ensures outbox == old(outbox) + (if old(retrievingSpeakers) then [] else [SpeakersFetch(conference.value)])
    {
      if retrievingSpeakers {
        return;
      }
      retrievingSpeakers := true;
      speakers := [];
      outbox := outbox + [SpeakersFetch(conference.value)];
    }

    method OnSpeakersSucceeded(fetched: seq<Speaker>)
      modifies this`speakers, this`retrievingSpeakers
      ensures speakers == fetched && !retrievingSpeakers
    {
      speakers := fetched;
      retrievingSpeakers := false;
    }

    method OnSpeakersFailed()
      modifies this`retrievingSpeakers
      ensures !retrievingSpeakers
    {
      retrievingSpeakers := false;
    }

    /**
     * `updateSpeakerDetails`: every speaker object of the list with the updated
     * speaker's uuid takes its details and is marked as complete; the others
     * are left as they are.
     */
    method UpdateSpeakerDetails(updated: SpeakerRecord)
      modifies set i | 0 <= i < |speakers| :: speakers[i]
      ensures forall i :: 0 <= i < |speakers| && speakers[i].uuid == updated.uuid ==>
                speakers[i].details == updated.details && speakers[i].detailsRetrieved
      ensures forall i :: 0 <= i < |speakers| && speakers[i].uuid != updated.uuid ==>
                speakers[i].details == old(speakers[i].details) && speakers[i].detailsRetrieved == old(speakers[i].detailsRetrieved)
    {
      var k := 0;
      while k < |speakers|
        invariant 0 <= k <= |speakers|
        invariant forall i :: 0 <= i < k && speakers[i].uuid == updated.uuid ==>
                    speakers[i].details == updated.details && speakers[i].detailsRetrieved
        invariant forall i :: 0 <= i < |speakers| && speakers[i].uuid != updated.uuid ==>
                    speakers[i].details == old(speakers[i].details) && speakers[i].detailsRetrieved == old(speakers[i].detailsRetrieved)
      {
        var speaker := speakers[k];
        if speaker.uuid == updated.uuid {
          speaker.details := updated.details;
          speaker.detailsRetrieved := true;
        }
        k := k + 1;
      }
    }

    /* -------------------------------------------------------------------- */
    /* Lists derived from the conference                                    */
    /* -------------------------------------------------------------------- */

    /** `retrieveTracksInternal` */
    method RetrieveTracksInternal()
      modifies this`tracks
      ensures conference.Some? && conference.value.tracks.Some? ==> tracks == conference.value.tracks.value
      ensures conference.None? || conference.value.tracks.None? ==> tracks == old(tracks)
    {
      if conference.Some? && conference.value.tracks.Some? {
        tracks := conference.value.tracks.value;
      }
    }

    /** `retrieveSessionTypesInternal`: the first type of each name, without the pauses. */
    method RetrieveSessionTypesInternal()
      modifies this`sessionTypes
      ensures conference.Some? && conference.value.sessionTypes.Some? ==>
                sessionTypes == KeptTypes(conference.value.sessionTypes.value, |conference.value.sessionTypes.value|)
      ensures conference.None? || conference.value.sessionTypes.None? ==> sessionTypes == old(sessionTypes)
    {
      if conference.Some? && conference.value.sessionTypes.Some? {
        sessionTypes := DedupSessionTypes(conference.value.sessionTypes.value);
      }
    }

    /** `retrieveExhibitionMapsInternal`: the floor plans whose image URL starts with "https", in order. */
    method RetrieveExhibitionMapsInternal()
      requires conference.Some?
      modifies this`exhibitionMaps
      ensures exhibitionMaps == SecureFloors(conference.value.floorPlans)
    {
      exhibitionMaps := SelectSecureFloors(conference.value.floorPlans);
    }

    /* -------------------------------------------------------------------- */
    /* Favorite counts                                                      */
    /* -------------------------------------------------------------------- */

    /** The favorite counts may be fetched: a conference with counts, and no fetch in flight. */
    predicate CanRefreshFavorites()
      reads this`conference, this`allFavoritesState
    {
      conference.Some? && conference.value.hasFavoriteCount &&
      (allFavoritesState == Succeeded || allFavoritesState == Failed)
    }

    /** `refreshFavorites`: one `allFavorites` fetch when allowed, none while one is in flight. */
    method RefreshFavorites()
      modifies this`outbox, this`allFavoritesState
      ensures outbox == old(outbox) + (if old(CanRefreshFavorites()) then [AllFavoritesFetch(conference.value)] else [])
      ensures allFavoritesState == if old(CanRefreshFavorites()) then InFlight else old(allFavoritesState)
      ensures !CanRefreshFavorites()  || !old(CanRefreshFavorites())
    {
      if CanRefreshFavorites() {
        outbox := outbox + [AllFavoritesFetch(conference.value)];
        allFavoritesState := InFlight;
      }
    }

    /**
     * Success of the `allFavorites` fetch: each fetched count in turn updates the
     * first record with its id, or is appended when there is none.
     */
    method OnAllFavoritesSucceeded(fetched: seq<Favorite>)
      modifies this`favorites, this`allFavoritesState
      ensures favorites == MergeFavorites(old(favorites), fetched) && allFavoritesState == Succeeded
    {
      var n := 0;
      while n < |fetched|
        invariant 0 <= n <= |fetched|
        invariant favorites == MergeFavorites(old(favorites), fetched[..n])
      {
        MergeFavorite(fetched[n]);
        MergeFavoritesStep(old(favorites), fetched, n);
        n := n + 1;
      }
      assert fetched[..|fetched|] == fetched;
      allFavoritesState := Succeeded;
    }

    /** One fetched count: the first record with its id takes it, or it is appended. */
    method MergeFavorite(favorite: Favorite)
      modifies this`favorites
      ensures favorites == MergeOne(old(favorites), favorite)
    {
      var index := 0;
      while index < |favorites| && favorites[index].id != favorite.id
        invariant 0 <= index <= |favorites|
        invariant forall j :: 0 <= j < index ==> Ids(favorites)[j] != favorite.id
      {
        index := index + 1;
      }
      assert index == IndexOf(Ids(favorites), favorite.id);
      if index < |favorites| {
        favorites := favorites[index := favorites[index].(favs := favorite.favs)];
      } else {
        favorites := favorites + [favorite];
      }
    }

    /** The `allFavorites` fetch failed; a later refresh may try again. */
    method OnAllFavoritesFailed()
      modifies this`allFavoritesState
      ensures allFavoritesState == Failed
    {
      allFavoritesState := Failed;
    }

    /* -------------------------------------------------------------------- */
    /* Account linking                                                      */
    /* -------------------------------------------------------------------- */

    /** Running the success callback of the account linking. */
    method RunCallback(cb: Callback)
      requires Valid() && (cb == UserSessionInformation ==> conference.Some?)
      modifies this`notes, this`badges, this`outbox, this`retrievingFavoriteSessions, this`favoredOpen, this`signals
      ensures Valid()
      ensures UserDataOf() == AfterCallback(old(UserDataOf()), cb, conference, authenticatedUser, cfpUserUuid,
                                            config.useRemoteNotes)
    {
      match cb {
        case NoCallback =>
        case UserSessionInformation => RetrieveAuthenticatedUserSessionInformation();
        case CallerRunnable => signals := signals + [CallerRunnableRan];
      }
    }

    /** Linking the account `uuid`: it is set and saved, then the callback runs. */
    method LinkAccount(uuid: string, cb: Callback)
      requires Valid() && (cb == UserSessionInformation ==> conference.Some?)
      modifies this`cfpUserUuid, this`favoredListenerAttached, this`settings,
               this`notes, this`badges, this`outbox, this`retrievingFavoriteSessions, this`favoredOpen, this`signals
      ensures Valid()
      ensures AccountOf() == old(AccountOf()).(uuid := uuid, settings := old(settings)[SavedAccountId := uuid],
                                               attached := old(favoredListenerAttached) && (uuid != "" || old(cfpUserUuid) == ""))
      ensures UserDataOf() == AfterCallback(old(UserDataOf()), cb, conference, authenticatedUser, uuid, config.useRemoteNotes)
    {
      SetCfpUserUuid(uuid);
      settings := settings[SavedAccountId := uuid];
      RunCallback(cb);
    }

    /**
     * `loadCfpAccount`: link the signed-in user to a CFP account, unless one is
     * linked. A saved account id is reused without a call or callback; a custom
     * login is its own account, saved and followed by the callback; any other
     * login is resolved by one `verifyAccount` call, whose success handler links
     * the account later. That call has no failure handler.
     */
    method LoadCfpAccount(user: User, cb: Callback) returns (fault: Option<Fault>)
      requires Valid() && user.email.Some? && (cb == UserSessionInformation ==> conference.Some?)
      modifies this`cfpUserUuid, this`favoredListenerAttached, this`settings, this`pendingVerifications,
               this`notes, this`badges, this`outbox, this`retrievingFavoriteSessions, this`favoredOpen, this`signals
      ensures Valid()
      ensures (AccountOf(), UserDataOf()) ==
                CfpLinked(old(AccountOf()), old(UserDataOf()), user, cb, conference, authenticatedUser, config.useRemoteNotes)
      ensures fault == if LinkFault(old(AccountOf()), user, conference) then Some(NullPointer) else None
    {
      fault := None;
      if cfpUserUuid != "" {
        return;
      }
      if SavedAccountId in settings {
        SetCfpUserUuid(settings[SavedAccountId]);
      } else if user.loginMethod == Custom {
        LinkAccount(user.networkId, cb);
      } else if conference.None? {
        fault := Some(NullPointer);
      } else {
        outbox := outbox + [VerifyAccountCall(conference.value, user)];
        pendingVerifications := pendingVerifications + [cb];
      }
    }

    /** Success of the `k`-th outstanding `verifyAccount` call: link and save the account, then run its callback. */
    method OnVerifyAccountSucceeded(k: nat, accountUuid: string)
      requires Valid() && k < |pendingVerifications|
      modifies this`cfpUserUuid, this`favoredListenerAttached, this`settings, this`pendingVerifications,
               this`notes, this`badges, this`outbox, this`retrievingFavoriteSessions, this`favoredOpen, this`signals
      ensures Valid() && cfpUserUuid == accountUuid && settings == old(settings)[SavedAccountId := accountUuid]
      ensures favoredListenerAttached == (old(favoredListenerAttached) && (accountUuid != "" || old(cfpUserUuid) == ""))
      ensures pendingVerifications == old(pendingVerifications[..k] + pendingVerifications[k + 1..])
      ensures UserDataOf() == AfterCallback(old(UserDataOf()), old(pendingVerifications[k]), conference, authenticatedUser,
                                            accountUuid, config.useRemoteNotes)
    {
      var cb := pendingVerifications[k];
      pendingVerifications := pendingVerifications[..k] + pendingVerifications[k + 1..];
      LinkAccount(accountUuid, cb);
    }

    /** Failure of a `verifyAccount` call: there is no handler, and the account stays unlinked. */
    method OnVerifyAccountFailed(k: nat)
      requires Valid() && k < |pendingVerifications|
      modifies this`pendingVerifications
      ensures Valid() && pendingVerifications == old(pendingVerifications[..k] + pendingVerifications[k + 1..])
    {
      pendingVerifications := pendingVerifications[..k] + pendingVerifications[k + 1..];
    }

    /* -------------------------------------------------------------------- */
    /* Signing in and out                                                   */
    /* -------------------------------------------------------------------- */

    /** `internalLogOut`: sign out, then clear the account. */
    method InternalLogOut() returns (done: bool)
      requires Valid()
      modifies this`authenticatedUser, this`cfpUserUuid, this`favoredListenerAttached, this`notes, this`badges,
               this`sponsorBadges, this`favoredOpen, this`internalFavoredSessions, this`outbox, this`settings
      ensures Valid() && done && authenticatedUser.None? && !IsAuthenticated()
      ensures (AccountOf(), UserDataOf()) == ClearedAccount(old(AccountOf()), old(UserDataOf()), conference)
    {
      authenticatedUser := None;
      ClearCfpAccount();
      done := true;
    }

    /** `logOut`: logs out when the user confirms the dialog, and says whether it did. */
    method LogOut(confirmed: bool) returns (loggedOut: bool)
      requires Valid()
      modifies this`authenticatedUser, this`cfpUserUuid, this`favoredListenerAttached, this`notes, this`badges,
               this`sponsorBadges, this`favoredOpen, this`internalFavoredSessions, this`outbox, this`settings
      ensures Valid() && loggedOut == confirmed
      ensures confirmed ==>
                authenticatedUser.None? && !IsAuthenticated() &&
                (AccountOf(), UserDataOf()) == ClearedAccount(old(AccountOf()), old(UserDataOf()), conference)
      ensures !confirmed ==> unchanged(this)
    {
      loggedOut := false;
      if confirmed {
        loggedOut := InternalLogOut();
      }
    }

    /**
     * The login service's callback of `authenticate`, with the signed-in user: a
     * user without an email is signed out again; otherwise the account is
     * linked, with the caller's runnable, if any, as success callback.
     */
    method OnAuthenticated(user: User, successRunnable: bool) returns (fault: Option<Fault>)
      requires Valid()
      modifies this`authenticatedUser, this`cfpUserUuid, this`favoredListenerAttached, this`notes, this`badges,
               this`sponsorBadges, this`favoredOpen, this`internalFavoredSessions, this`outbox, this`settings,
               this`pendingVerifications, this`retrievingFavoriteSessions, this`signals
      ensures Valid()
      ensures user.email.None? ==>
                fault.None? && authenticatedUser.None? && !IsAuthenticated() &&
                (AccountOf(), UserDataOf()) == ClearedAccount(old(AccountOf()), old(UserDataOf()), conference)
      ensures user.email.Some? ==> authenticatedUser == Some(user)
      ensures user.email.Some? ==>
                var cb := if successRunnable then CallerRunnable else NoCallback;
                && (AccountOf(), UserDataOf()) ==
                     CfpLinked(old(AccountOf()), old(UserDataOf()), user, cb, conference, Some(user), config.useRemoteNotes)
                && fault == if LinkFault(old(AccountOf()), user, conference) then Some(NullPointer) else None
    {
      if user.email.None? {
        var _ := InternalLogOut();
        fault := None;
      } else {
        authenticatedUser := Some(user);
        fault := LoadCfpAccount(user, if successRunnable then CallerRunnable else NoCallback);
      }
    }

    /** The login service's failure callback: the caller's failure runnable, if any, runs. */
    method OnAuthenticationFailed(failureRunnable: bool)
      modifies this`signals
      ensures signals == old(signals) + (if failureRunnable then [CallerFailureRan] else [])
    {
      if failureRunnable {
        signals := signals + [CallerFailureRan];
      }
    }

    /* -------------------------------------------------------------------- */
    /* Selecting a conference                                               */
    /* -------------------------------------------------------------------- */

    /**
     * `setConference` with a conference, and the conference listener, which runs
     * only when it differs from the selected one: on a switch from another
     * conference the account is cleared and, for a signed-in user, linked again
     * with the user's session data as callback; on the first conference a
     * signed-in user is linked without a callback. Then sessions and speakers
     * are fetched, tracks, session types and floor plans derived, and the
     * favorite counts emptied and refreshed.
     */
    method SetConference(c: Conference) returns (ghost relinked: UserData)
      requires Valid()
      modifies this`conference, this`cfpUserUuid, this`favoredListenerAttached, this`notes, this`badges,
               this`sponsorBadges, this`favoredOpen, this`internalFavoredSessions, this`outbox, this`settings,
               this`pendingVerifications, this`retrievingFavoriteSessions, this`signals,
               this`retrievingSessions, this`sessions, this`retrievingSpeakers, this`speakers,
               this`tracks, this`sessionTypes, this`exhibitionMaps, this`favorites, this`allFavoritesState
      ensures Valid() && conference == Some(c)
      ensures old(conference) == Some(c) ==> unchanged(this)
      ensures old(conference).Some? && old(conference) != Some(c) ==>
                (AccountOf(), relinked) ==
                  SwitchedAccount(old(AccountOf()), old(UserDataOf()), c, authenticatedUser, config.useRemoteNotes)
      ensures old(conference).None? ==>
                (AccountOf(), relinked) == FirstLinked(old(AccountOf()), old(UserDataOf()), c, authenticatedUser, config.useRemoteNotes)
      ensures old(conference) != Some(c) ==>
                ConferenceLoaded(old(retrievingSessions), old(sessions), old(retrievingSpeakers), old(speakers),
                                 old(tracks), old(sessionTypes), old(allFavoritesState), relinked)
    {
      relinked := UserDataOf();
      if conference == Some(c) {
        return;
      }
      var switching := conference.Some?;
      conference := Some(c);
      relinked := ConferenceChanged(switching);
    }

    /**
     * The conference listener, once a new conference is set: the account part
     * first, then the fetching part. `relinked` is the user data in between.
     */
    method ConferenceChanged(switching: bool) returns (ghost relinked: UserData)
      requires Valid() && conference.Some?
      modifies this`cfpUserUuid, this`favoredListenerAttached, this`notes, this`badges,
               this`sponsorBadges, this`favoredOpen, this`internalFavoredSessions, this`outbox, this`settings,
               this`pendingVerifications, this`retrievingFavoriteSessions, this`signals,
               this`retrievingSessions, this`sessions, this`retrievingSpeakers, this`speakers,
               this`tracks, this`sessionTypes, this`exhibitionMaps, this`favorites, this`allFavoritesState
      ensures Valid()
      ensures (AccountOf(), relinked) ==
                if switching then SwitchedAccount(old(AccountOf()), old(UserDataOf()), old(conference).value,
                                                  old(authenticatedUser), config.useRemoteNotes)
                else FirstLinked(old(AccountOf()), old(UserDataOf()), old(conference).value, old(authenticatedUser),
                                   config.useRemoteNotes)
      ensures ConferenceLoaded(old(retrievingSessions), old(sessions), old(retrievingSpeakers), old(speakers),
                               old(tracks), old(sessionTypes), old(allFavoritesState), relinked)
    {
      if switching {
        SwitchAccount();
      } else {
        LinkFirstAccount();
      }
      relinked := UserDataOf();
      LoadConferenceData();
    }

    /**
     * The account part of the conference listener on a switch: clear the
     * account, then link a signed-in user again with the user's session data
     * as callback.
     */
    method SwitchAccount()
      requires Valid() && conference.Some?
      modifies this`cfpUserUuid, this`favoredListenerAttached, this`notes, this`badges,
               this`sponsorBadges, this`favoredOpen, this`internalFavoredSessions, this`outbox, this`settings,
               this`pendingVerifications, this`retrievingFavoriteSessions, this`signals
      ensures Valid()
      ensures (AccountOf(), UserDataOf()) == SwitchedAccount(old(AccountOf()), old(UserDataOf()), old(conference).value,
                                                             old(authenticatedUser), config.useRemoteNotes)
      ensures unchanged(this`retrievingSessions, this`sessions, this`retrievingSpeakers, this`speakers, this`tracks,
                        this`sessionTypes, this`exhibitionMaps, this`favorites, this`allFavoritesState)
    {
      ClearCfpAccount();
      if authenticatedUser.Some? {
        var _ := LoadCfpAccount(authenticatedUser.value, UserSessionInformation);
      }
    }

    /**
     * The account part of the conference listener for the first conference:
     * link a signed-in user without a callback.
     */
    method LinkFirstAccount()
      requires Valid() && conference.Some?
      modifies this`cfpUserUuid, this`favoredListenerAttached, this`settings, this`pendingVerifications,
               this`notes, this`badges, this`outbox, this`retrievingFavoriteSessions, this`favoredOpen, this`signals
      ensures Valid()
      ensures (AccountOf(), UserDataOf()) == FirstLinked(old(AccountOf()), old(UserDataOf()), old(conference).value,
                                                         old(authenticatedUser), config.useRemoteNotes)
      ensures unchanged(this`retrievingSessions, this`sessions, this`retrievingSpeakers, this`speakers, this`tracks,
                        this`sessionTypes, this`exhibitionMaps, this`favorites, this`allFavoritesState)
    {
      if authenticatedUser.Some? {
        var _ := LoadCfpAccount(authenticatedUser.value, NoCallback);
      }
    }

    /**
     * The fetching part of the conference listener: sessions and speakers, each
     * behind its single-flight guard; tracks, session types and floor plans
     * derived from the conference; the favorite counts emptied and fetched afresh.
     */
    method LoadConferenceData()
      requires conference.Some?
      modifies this`outbox, this`signals, this`retrievingSessions, this`sessions, this`retrievingSpeakers,
               this`speakers, this`favorites, this`allFavoritesState, this`tracks, this`sessionTypes, this`exhibitionMaps
      ensures retrievingSessions && retrievingSpeakers
      ensures sessions == if old(retrievingSessions) then old(sessions) else []
      ensures speakers == if old(retrievingSpeakers) then old(speakers) else []
      ensures var c := conference.value;
              && tracks == (if c.tracks.Some? then c.tracks.value else old(tracks))
              && sessionTypes == (if c.sessionTypes.Some? then KeptTypes(c.sessionTypes.value, |c.sessionTypes.value|)
                                  else old(sessionTypes))
              && exhibitionMaps == SecureFloors(c.floorPlans)
      ensures favorites == []
      ensures allFavoritesState == if old(CanRefreshFavorites()) then InFlight else old(allFavoritesState)
      ensures UserDataOf() ==
                old(UserDataOf()).(outbox := old(outbox) + ConferenceFetches(conference.value, old(retrievingSessions),
                                                                             old(retrievingSpeakers), old(CanRefreshFavorites())),
                                   signals := old(signals) + (if old(retrievingSessions) || IsAuthenticated() then []
                                                              else [PreloadRatingNotifications]))
      ensures unchanged(this`cfpUserUuid, this`favoredListenerAttached, this`internalFavoredSessions, this`sponsorBadges,
                        this`settings, this`pendingVerifications, this`authenticatedUser, this`favoredListenerCreated)
    {
      FetchConferenceData();
      DeriveConferenceLists();
    }

    /**
     * The state after the fetching part of the conference listener, from the
     * given earlier one: both fetch flags raised, a list emptied where its fetch
     * is issued, the fetches in order on the outbox, rating notifications
     * preloaded for an unauthenticated user whose sessions are fetched, the
     * tracks, kept session types and secure floors of the conference, and the
     * favorite counts emptied and fetched again when they are settled.
     */
    ghost predicate ConferenceLoaded(retrievingSessions0: bool, sessions0: seq<Session>, retrievingSpeakers0: bool,
                                     speakers0: seq<Speaker>, tracks0: seq<Track>, sessionTypes0: seq<SessionType>,
                                     allFavoritesState0: ConnectState, d0: UserData)
      requires conference.Some?
      reads this`conference, this`retrievingSessions, this`retrievingSpeakers, this`sessions, this`speakers, this`tracks,
            this`sessionTypes, this`exhibitionMaps, this`favorites, this`allFavoritesState, this`notes, this`badges,
            this`favoredOpen, this`retrievingFavoriteSessions, this`outbox, this`signals, this`authenticatedUser,
            this`cfpUserUuid
    {
      var c := conference.value;
      var refresh := c.hasFavoriteCount && (allFavoritesState0 == Succeeded || allFavoritesState0 == Failed);
      && retrievingSessions && retrievingSpeakers
      && sessions == (if retrievingSessions0 then sessions0 else [])
      && speakers == (if retrievingSpeakers0 then speakers0 else [])
      && tracks == (if c.tracks.Some? then c.tracks.value else tracks0)
      && sessionTypes == (if c.sessionTypes.Some? then KeptTypes(c.sessionTypes.value, |c.sessionTypes.value|)
                          else sessionTypes0)
      && exhibitionMaps == SecureFloors(c.floorPlans)
      && favorites == []
      && allFavoritesState == (if refresh then InFlight else allFavoritesState0)
      && UserDataOf() == d0.(outbox := d0.outbox + ConferenceFetches(c, retrievingSessions0, retrievingSpeakers0, refresh),
                             signals := d0.signals +
                               (if retrievingSessions0 || IsAuthenticated() then [] else [PreloadRatingNotifications]))
    }

    /** The remote part of the conference listener: sessions, speakers and the favorite counts. */
    method FetchConferenceData()
      requires conference.Some?
      modifies this`outbox, this`signals, this`retrievingSessions, this`sessions, this`retrievingSpeakers,
               this`speakers, this`favorites, this`allFavoritesState
      ensures retrievingSessions && retrievingSpeakers
      ensures sessions == if old(retrievingSessions) then old(sessions) else []
      ensures speakers == if old(retrievingSpeakers) then old(speakers) else []
      ensures outbox == old(outbox) + ConferenceFetches(conference.value, old(retrievingSessions), old(retrievingSpeakers),
                                                        old(CanRefreshFavorites()))
      ensures signals == old(signals) + (if old(retrievingSessions) || IsAuthenticated() then [] else [PreloadRatingNotifications])
      ensures favorites == []
      ensures allFavoritesState == if old(CanRefreshFavorites()) then InFlight else old(allFavoritesState)
      ensures unchanged(this`cfpUserUuid, this`favoredListenerAttached, this`internalFavoredSessions, this`sponsorBadges,
                        this`settings, this`pendingVerifications, this`authenticatedUser, this`favoredListenerCreated)
    {
      FetchSessionsAndSpeakers();
      ResetFavorites();
    }

    /** The sessions, then the speakers, each behind its single-flight guard. */
    method FetchSessionsAndSpeakers()
      requires conference.Some?
      modifies this`outbox, this`signals, this`retrievingSessions, this`sessions, this`retrievingSpeakers, this`speakers
      ensures retrievingSessions && retrievingSpeakers
      ensures sessions == if old(retrievingSessions) then old(sessions) else []
      ensures speakers == if old(retrievingSpeakers) then old(speakers) else []
      ensures outbox == old(outbox) + ConferenceFetches(conference.value, old(retrievingSessions), old(retrievingSpeakers), false)
      ensures signals == old(signals) + (if old(retrievingSessions) || IsAuthenticated() then [] else [PreloadRatingNotifications])
    {
      RetrieveSessionsInternal();
      RetrieveSpeakersInternal();
    }

    /** The favorite counts are emptied and fetched again when they may be refreshed. */
    method ResetFavorites()
      modifies this`outbox, this`favorites, this`allFavoritesState
      ensures favorites == []
      ensures outbox == old(outbox) + (if old(CanRefreshFavorites()) then [AllFavoritesFetch(conference.value)] else [])
      ensures allFavoritesState == if old(CanRefreshFavorites()) then InFlight else old(allFavoritesState)
    {
      favorites := [];
      RefreshFavorites();
    }

    /** The lists the conference listener derives from the conference itself. */
    method DeriveConferenceLists()
      requires conference.Some?
      modifies this`tracks, this`sessionTypes, this`exhibitionMaps
      ensures var c := conference.value;
              && tracks == (if c.tracks.Some? then c.tracks.value else old(tracks))
              && sessionTypes == (if c.sessionTypes.Some? then KeptTypes(c.sessionTypes.value, |c.sessionTypes.value|)
                                  else old(sessionTypes))
              && exhibitionMaps == SecureFloors(c.floorPlans)
      ensures unchanged(this`cfpUserUuid, this`favoredListenerAttached, this`internalFavoredSessions, this`sponsorBadges,
                        this`settings, this`pendingVerifications, this`authenticatedUser, this`favoredListenerCreated)
    {
      RetrieveTracksInternal();
      RetrieveSessionTypesInternal();
      RetrieveExhibitionMapsInternal();
    }

    /** `retrieveConference`: not ready until the `conference` fetch returns. */
    method RetrieveConference(id: string)
      modifies this`ready, this`outbox
      ensures !ready && outbox == old(outbox) + [RemoteCall("conference", [("id", id)])]
    {
      ready := false;
      outbox := outbox + [RemoteCall("conference", [("id", id)])];
    }

    /** Success of the `conference` fetch: a returned conference is selected and the service is ready. */
    method OnConferenceLoaded(c: Option<Conference>) returns (ghost relinked: UserData)
      requires Valid()
      modifies this`conference, this`cfpUserUuid, this`favoredListenerAttached, this`notes, this`badges,
               this`sponsorBadges, this`favoredOpen, this`internalFavoredSessions, this`outbox, this`settings,
               this`pendingVerifications, this`retrievingFavoriteSessions, this`signals,
               this`retrievingSessions, this`sessions, this`retrievingSpeakers, this`speakers,
               this`tracks, this`sessionTypes, this`exhibitionMaps, this`favorites, this`allFavoritesState, this`ready
      ensures Valid()
      ensures c.None? ==> unchanged(this)
      ensures c.Some? ==> ready && conference == c
      ensures c.Some? && old(conference) == c ==>
                unchanged(this`cfpUserUuid, this`favoredListenerAttached, this`notes, this`badges, this`sponsorBadges,
                          this`favoredOpen, this`internalFavoredSessions, this`outbox, this`settings,
                          this`pendingVerifications, this`retrievingFavoriteSessions, this`signals,
                          this`retrievingSessions, this`sessions, this`retrievingSpeakers, this`speakers,
                          this`tracks, this`sessionTypes, this`exhibitionMaps, this`favorites, this`allFavoritesState)
      ensures c.Some? && old(conference).Some? && old(conference) != c ==>
                (AccountOf(), relinked) ==
                  SwitchedAccount(old(AccountOf()), old(UserDataOf()), c.value, authenticatedUser, config.useRemoteNotes)
      ensures c.Some? && old(conference).None? ==>
                (AccountOf(), relinked) ==
                  FirstLinked(old(AccountOf()), old(UserDataOf()), c.value, authenticatedUser, config.useRemoteNotes)
      ensures c.Some? && old(conference) != c ==>
                ConferenceLoaded(old(retrievingSessions), old(sessions), old(retrievingSpeakers), old(speakers),
                                 old(tracks), old(sessionTypes), old(allFavoritesState), relinked)
    {
      relinked := UserDataOf();
      if c.Some? {
        relinked := SetConference(c.value);
        ready := true;
      }
    }

    /** A silent push notification writes the reload marker file. */
    method PushNotificationReceived()
      modifies this`reloadFile
      ensures reloadFile
    {
      reloadFile := true;
    }

    /**
     * `checkIfReloadRequested`: with a conference selected and the marker file
     * present, delete the file and fetch sessions and speakers again.
     */
    method CheckIfReloadRequested()
      modifies this`reloadFile, this`retrievingSessions, this`sessions, this`outbox, this`signals,
               this`retrievingSpeakers, this`speakers
      ensures conference.None? || !old(reloadFile) ==> unchanged(this)
      ensures conference.Some? && old(reloadFile) ==>
                !reloadFile && retrievingSessions && retrievingSpeakers &&
                sessions == (if old(retrievingSessions) then old(sessions) else []) &&
                speakers == (if old(retrievingSpeakers) then old(speakers) else []) &&
                outbox == old(outbox) + ConferenceFetches(conference.value, old(retrievingSessions), old(retrievingSpeakers), false) &&
                signals == old(signals) + (if old(retrievingSessions) || IsAuthenticated() then [] else [PreloadRatingNotifications])
    {
      if conference.Some? && reloadFile {
        reloadFile := false;
        FetchSessionsAndSpeakers();
      }
    }
  }
}
