/**
 * The account-linking decisions of the VK single-sign-on plugin, stated on
 * a value of the host storage it touches (library.js).  The class in
 * store.dfy performs the same steps as in-place writes and is proved equal
 * to the functions here; every property of the plugin is a lemma about them.
 */
module Accounts {
  import opened Wrappers

  /** A local account id.  The host counts guests as 0 and spiders as -1. */
  type Uid = int

  /** Failures: an error handed back by a host call, or an exception thrown by the plugin. */
  datatype Error = HostError(reason: string) | TypeError(reason: string)

  /** The fields of `user:<uid>` that the plugin or `User.create` writes; `None` is an absent field. */
  datatype UserRecord = UserRecord(
    username: Option<string>,
    email: Option<string>,
    vkontakteid: Option<string>,
    emailConfirmed: Option<bool>,
    picture: Option<string>,
    uploadedPicture: Option<string>)

  const NO_FIELDS := UserRecord(None, None, None, None, None, None)

  /**
   * The host storage: the `vkontakteid:uid` hash, the user records, the
   * email index read by `User.getUidByEmail`, the `users:notvalidated` set and
   * the uid allocator behind `User.create`.
   */
  datatype Db = Db(
    vkUid: map<string, Uid>,
    users: map<Uid, UserRecord>,
    emailUid: map<string, Uid>,
    notValidated: set<Uid>,
    nextUid: Uid)

  /** The allocator's invariant: every account and every indexed email names an allocated uid. */
  predicate Valid(db: Db) {
    && db.nextUid > 0
    && (forall u :: u in db.users ==> u < db.nextUid)
    && (forall e :: e in db.emailUid ==> db.emailUid[e] < db.nextUid)
  }

  /** A call's result together with the storage it leaves behind. */
  datatype Transition = Transition(result: Result<Uid, Error>, after: Db)

  // ---------------------------------------------------------------------------
  // Single writes of the host API
  // ---------------------------------------------------------------------------

  /** `user:<uid>` as stored; a uid that has no record reads as a record without fields. */
  function Record(db: Db, uid: Uid): UserRecord {
    if uid in db.users then db.users[uid] else NO_FIELDS
  }

  /** The user fields that `User.setUserField` is called with. */
  datatype FieldWrite =
    | VkontakteId(vkId: string)
    | EmailConfirmed(confirmed: bool)
    | UploadedPicture(url: string)
    | Picture(url: string)

  function Apply(rec: UserRecord, w: FieldWrite): UserRecord {
    match w
    case VkontakteId(v) => rec.(vkontakteid := Some(v))
    case EmailConfirmed(c) => rec.(emailConfirmed := Some(c))
    case UploadedPicture(u) => rec.(uploadedPicture := Some(u))
    case Picture(u) => rec.(picture := Some(u))
  }

  /** `User.setUserField(uid, field, value)`: creates the record if needed. */
  function SetUserField(db: Db, uid: Uid, w: FieldWrite): (r: Db)
    ensures r.users.Keys == db.users.Keys + {uid}
    ensures Record(r, uid) == Apply(Record(db, uid), w)
    ensures forall u :: u in db.users && u != uid ==> r.users[u] == db.users[u]
    ensures r.vkUid == db.vkUid && r.emailUid == db.emailUid && r.notValidated == db.notValidated
    ensures r.nextUid == db.nextUid
  {
    db.(users := db.users[uid := Apply(Record(db, uid), w)])
  }

  /** `User.create({ username, email })` succeeding: the next uid gets a fresh record. */
  function Created(db: Db, username: string, email: string): (r: Db)
    ensures r.nextUid == db.nextUid + 1
    ensures r.users.Keys == db.users.Keys + {db.nextUid}
    ensures r.users[db.nextUid] == NO_FIELDS.(username := Some(username), email := Some(email))
    ensures forall u :: u in db.users && u != db.nextUid ==> r.users[u] == db.users[u]
    ensures r.vkUid == db.vkUid && r.emailUid == db.emailUid && r.notValidated == db.notValidated
    // on an allocator that keeps its invariant, the uid is fresh and the invariant is kept
    ensures Valid(db) ==> db.nextUid > 0 && db.nextUid !in db.users && Valid(r)
  {
    db.(users := db.users[db.nextUid := NO_FIELDS.(username := Some(username), email := Some(email))],
        nextUid := db.nextUid + 1)
  }

  // ---------------------------------------------------------------------------
  // Vkontakte.login (library.js:154-208)
  // ---------------------------------------------------------------------------

  /** The failures the three awaited host calls of `login` may report. */
  datatype LoginFaults = LoginFaults(lookup: Option<Error>, byEmail: Option<Error>, create: Option<Error>)

  const NO_LOGIN_FAULTS := LoginFaults(None, None, None)

  /** `!uid` in the callback of `User.getUidByEmail`: no uid, or uid 0. */
  function HasAccount(found: Option<Uid>): (r: bool)
    ensures r <==> found != None && found != Some(0)
  {
    found.Some? && found.value != 0
  }

  function UidByEmail(db: Db, email: string): (r: Option<Uid>)
    ensures r.Some? <==> email in db.emailUid
    ensures r.Some? ==> r.value == db.emailUid[email]
  {
    if email in db.emailUid then Some(db.emailUid[email]) else None
  }

  /** The confirmation step of `success` (library.js:170-174). */
  function Confirm(db: Db, uid: Uid, autoconfirm: bool): (r: Db)
    ensures Record(r, uid) == Record(db, uid).(emailConfirmed := Some(autoconfirm))
    ensures r.notValidated == if autoconfirm then db.notValidated - {uid} else db.notValidated
    ensures r.users.Keys == db.users.Keys + {uid}
    ensures forall u :: u in db.users && u != uid ==> r.users[u] == db.users[u]
    ensures r.vkUid == db.vkUid && r.emailUid == db.emailUid && r.nextUid == db.nextUid
  {
    var db1 := SetUserField(db, uid, EmailConfirmed(autoconfirm));
    if autoconfirm then db1.(notValidated := db1.notValidated - {uid}) else db1
  }

  /** The two link writes: the user's back-reference, then the hash entry (library.js:176-177, 116-117). */
  function Link(db: Db, vkId: string, uid: Uid): (r: Db)
    ensures r.vkUid == db.vkUid[vkId := uid]
    ensures Record(r, uid) == Record(db, uid).(vkontakteid := Some(vkId))
    ensures r.users.Keys == db.users.Keys + {uid}
    ensures forall u :: u in db.users && u != uid ==> r.users[u] == db.users[u]
    ensures r.emailUid == db.emailUid && r.notValidated == db.notValidated && r.nextUid == db.nextUid
  {
    var db1 := SetUserField(db, uid, VkontakteId(vkId));
    db1.(vkUid := db1.vkUid[vkId := uid])
  }

  /** The avatar step (library.js:179-182): both fields, and only for a truthy picture. */
  function SetAvatar(db: Db, uid: Uid, picture: string): (r: Db)
    ensures picture == "" ==> r == db
    ensures picture != "" ==> Record(r, uid) == Record(db, uid).(uploadedPicture := Some(picture), picture := Some(picture))
    ensures picture != "" ==> r.users.Keys == db.users.Keys + {uid}
    ensures forall u :: u in db.users && u != uid ==> r.users[u] == db.users[u]
    ensures r.vkUid == db.vkUid && r.emailUid == db.emailUid && r.notValidated == db.notValidated
    ensures r.nextUid == db.nextUid
  {
    if picture == "" then db
    else SetUserField(SetUserField(db, uid, UploadedPicture(picture)), uid, Picture(picture))
  }

  /** The `success` closure of `login` (library.js:168-187). */
  function Finish(db: Db, vkId: string, uid: Uid, picture: string, autoconfirm: bool): (r: Db)
    ensures r.vkUid == db.vkUid[vkId := uid]
    ensures var before := Record(db, uid);
            Record(r, uid) == before.(vkontakteid := Some(vkId), emailConfirmed := Some(autoconfirm),
                                      picture := if picture != "" then Some(picture) else before.picture,
                                      uploadedPicture := if picture != "" then Some(picture) else before.uploadedPicture)
    ensures r.notValidated == if autoconfirm then db.notValidated - {uid} else db.notValidated
    ensures r.users.Keys == db.users.Keys + {uid}
    ensures forall u :: u in db.users && u != uid ==> r.users[u] == db.users[u]
    ensures r.emailUid == db.emailUid && r.nextUid == db.nextUid
  {
    SetAvatar(Link(Confirm(db, uid, autoconfirm), vkId, uid), uid, picture)
  }

  function LoginSpec(db: Db, vkId: string, displayName: string, email: string, picture: string,
                     autoconfirm: bool, faults: LoginFaults): (r: Transition)
    ensures r.result.Failure? ==> r.after == db
    ensures r.result.Success? ==> vkId in r.after.vkUid && r.after.vkUid[vkId] == r.result.value
    ensures r.result.Success? && vkId !in db.vkUid ==> Record(r.after, r.result.value).vkontakteid == Some(vkId)
    ensures r.after.nextUid <= db.nextUid + 1 && r.after.emailUid == db.emailUid
  {
    if faults.lookup.Some? then Transition(Failure(faults.lookup.value), db)
    else if vkId in db.vkUid then Transition(Success(db.vkUid[vkId]), db)
    else if faults.byEmail.Some? then Transition(Failure(faults.byEmail.value), db)
    else if !HasAccount(UidByEmail(db, email)) then
      if faults.create.Some? then Transition(Failure(faults.create.value), db)
      else
        var uid := db.nextUid;
        Transition(Success(uid), Finish(Created(db, displayName, email), vkId, uid, picture, autoconfirm))
    else
      var uid := db.emailUid[email];
      Transition(Success(uid), Finish(db, vkId, uid, picture, autoconfirm))
  }

  /** Login's contract on the fast path: the linked uid, and no write at all. */
  lemma LoginFastPath(db: Db, vkId: string, displayName: string, email: string, picture: string,
                      autoconfirm: bool, faults: LoginFaults, otherIndex: map<string, Uid>)
    requires faults.lookup.None? && vkId in db.vkUid
    ensures LoginSpec(db, vkId, displayName, email, picture, autoconfirm, faults)
            == Transition(Success(db.vkUid[vkId]), db)
    // the email index, the email lookup and the account creation are never consulted
    ensures LoginSpec(db.(emailUid := otherIndex), vkId, displayName, email, picture, autoconfirm, faults)
            == Transition(Success(db.vkUid[vkId]), db.(emailUid := otherIndex))
  {
  }

  /** An unlinked VK id whose email names an account is merged into that account. */
  lemma LoginMergesByEmail(db: Db, vkId: string, displayName: string, email: string, picture: string,
                           autoconfirm: bool, faults: LoginFaults)
    requires faults.lookup.None? && faults.byEmail.None?
    requires vkId !in db.vkUid && HasAccount(UidByEmail(db, email))
    ensures var uid := db.emailUid[email];
            var t := LoginSpec(db, vkId, displayName, email, picture, autoconfirm, faults);
            && t.result == Success(uid)
            && t.after.nextUid == db.nextUid
            && t.after.users.Keys == db.users.Keys + {uid}
            && t.after.vkUid == db.vkUid[vkId := uid]
            && t.after.emailUid == db.emailUid
            && Record(t.after, uid).vkontakteid == Some(vkId)
            && Record(t.after, uid).username == Record(db, uid).username
            && Record(t.after, uid).email == Record(db, uid).email
            && (forall u :: u in db.users && u != uid ==> t.after.users[u] == db.users[u])
  {
  }

  /** An unlinked VK id with no account for its email gets exactly one new, linked account. */
  lemma LoginCreatesAccount(db: Db, vkId: string, displayName: string, email: string, picture: string,
                            autoconfirm: bool, faults: LoginFaults)
    requires Valid(db)
    requires faults.lookup.None? && faults.byEmail.None? && faults.create.None?
    requires vkId !in db.vkUid && !HasAccount(UidByEmail(db, email))
    ensures var uid := db.nextUid;
            var t := LoginSpec(db, vkId, displayName, email, picture, autoconfirm, faults);
            && t.result == Success(uid)
            && uid > 0 && uid !in db.users
            && t.after.nextUid == db.nextUid + 1
            && t.after.users.Keys == db.users.Keys + {uid}
            && t.after.users[uid] == UserRecord(Some(displayName), Some(email), Some(vkId), Some(autoconfirm),
                                                if picture == "" then None else Some(picture),
                                                if picture == "" then None else Some(picture))
            && t.after.vkUid == db.vkUid[vkId := uid]
            && t.after.emailUid == db.emailUid
            && (forall u :: u in db.users ==> t.after.users[u] == db.users[u])
  {
  }

  /** Every failure of login is the failing call's own error, and nothing has been written. */
  lemma LoginFailureWritesNothing(db: Db, vkId: string, displayName: string, email: string, picture: string,
                                  autoconfirm: bool, faults: LoginFaults)
    ensures var t := LoginSpec(db, vkId, displayName, email, picture, autoconfirm, faults);
            t.result.Failure? ==>
              && t.after == db
              && Some(t.result.error) in {faults.lookup, faults.byEmail, faults.create}
    ensures faults.lookup.Some? ==>
              LoginSpec(db, vkId, displayName, email, picture, autoconfirm, faults) == Transition(Failure(faults.lookup.value), db)
    ensures faults.lookup.None? && vkId !in db.vkUid && faults.byEmail.Some? ==>
              LoginSpec(db, vkId, displayName, email, picture, autoconfirm, faults)
              == Transition(Failure(faults.byEmail.value), db)
    ensures faults.lookup.None? && vkId !in db.vkUid && !HasAccount(UidByEmail(db, email))
            && faults.byEmail.None? && faults.create.Some? ==>
              LoginSpec(db, vkId, displayName, email, picture, autoconfirm, faults)
              == Transition(Failure(faults.create.value), db)
  {
  }

  /**
   * On the merge and create paths the email-confirmed flag becomes the
   * autoconfirm setting, and the uid leaves `users:notvalidated` exactly when
   * autoconfirm is on.
   */
  lemma LoginConfirmation(db: Db, vkId: string, displayName: string, email: string, picture: string,
                          autoconfirm: bool, faults: LoginFaults)
    requires vkId !in db.vkUid
    ensures var t := LoginSpec(db, vkId, displayName, email, picture, autoconfirm, faults);
            t.result.Success? ==>
              && Record(t.after, t.result.value).emailConfirmed == Some(autoconfirm)
              && t.after.notValidated == (if autoconfirm then db.notValidated - {t.result.value} else db.notValidated)
  {
  }

  /** The avatar fields are both set to a truthy picture and are otherwise left as they were. */
  lemma LoginAvatar(db: Db, vkId: string, displayName: string, email: string, picture: string,
                    autoconfirm: bool, faults: LoginFaults)
    requires vkId !in db.vkUid
    ensures var t := LoginSpec(db, vkId, displayName, email, picture, autoconfirm, faults);
            var before := if HasAccount(UidByEmail(db, email)) then Record(db, db.emailUid[email]) else NO_FIELDS;
            t.result.Success? ==>
              var rec := Record(t.after, t.result.value);
              if picture != "" then rec.picture == Some(picture) && rec.uploadedPicture == Some(picture)
              else rec.picture == before.picture && rec.uploadedPicture == before.uploadedPicture
  {
  }

  /** After any successful login the hash maps the VK id to the uid returned. */
  lemma LoginLinksResult(db: Db, vkId: string, displayName: string, email: string, picture: string,
                         autoconfirm: bool, faults: LoginFaults)
    ensures var t := LoginSpec(db, vkId, displayName, email, picture, autoconfirm, faults);
            && t.after.nextUid <= db.nextUid + 1
            && (t.result.Success? ==> vkId in t.after.vkUid && t.after.vkUid[vkId] == t.result.value)
            && (vkId in db.vkUid ==> t.after == db)
  {
  }

  lemma FinishPreservesValid(db: Db, vkId: string, uid: Uid, picture: string, autoconfirm: bool)
    requires Valid(db) && uid < db.nextUid
    ensures Valid(Finish(db, vkId, uid, picture, autoconfirm))
  {
  }

  lemma LoginPreservesValid(db: Db, vkId: string, displayName: string, email: string, picture: string,
                            autoconfirm: bool, faults: LoginFaults)
    requires Valid(db)
    ensures Valid(LoginSpec(db, vkId, displayName, email, picture, autoconfirm, faults).after)
  {
    if faults.lookup.None? && vkId !in db.vkUid && faults.byEmail.None? {
      if !HasAccount(UidByEmail(db, email)) {
        if faults.create.None? {
          FinishPreservesValid(Created(db, displayName, email), vkId, db.nextUid, picture, autoconfirm);
        }
      } else {
        FinishPreservesValid(db, vkId, db.emailUid[email], picture, autoconfirm);
      }
    }
  }

  // ---------------------------------------------------------------------------
  // Repeated logins of one VK identity
  // ---------------------------------------------------------------------------

  /** One later login attempt for the same VK id, with whatever profile data and failures it brings. */
  datatype Attempt = Attempt(displayName: string, email: string, picture: string, faults: LoginFaults)

  datatype Run = Run(results: seq<Result<Uid, Error>>, after: Db)

  function LoginAll(db: Db, vkId: string, autoconfirm: bool, attempts: seq<Attempt>): Run
    decreases |attempts|
  {
    if attempts == [] then Run([], db)
    else
      var a := attempts[0];
      var t := LoginSpec(db, vkId, a.displayName, a.email, a.picture, autoconfirm, a.faults);
      var rest := LoginAll(t.after, vkId, autoconfirm, attempts[1..]);
      Run([t.result] + rest.results, rest.after)
  }

  /**
   * However often one VK identity logs in, and whatever email it presents
   * each time, at most one account is created and every successful login
   * returns the same uid, the one the hash ends up holding.
   */
  lemma {:induction false} RepeatedLoginsAgree(db: Db, vkId: string, autoconfirm: bool, attempts: seq<Attempt>)
    ensures var run := LoginAll(db, vkId, autoconfirm, attempts);
            && |run.results| == |attempts|
            && run.after.nextUid <= db.nextUid + 1
            && (vkId in db.vkUid ==> run.after == db)
            && (forall i :: 0 <= i < |run.results| && run.results[i].Success? ==>
                  vkId in run.after.vkUid && run.results[i].value == run.after.vkUid[vkId])
    decreases |attempts|
  {
    if attempts != [] {
      var a := attempts[0];
      var t := LoginSpec(db, vkId, a.displayName, a.email, a.picture, autoconfirm, a.faults);
      LoginLinksResult(db, vkId, a.displayName, a.email, a.picture, autoconfirm, a.faults);
      RepeatedLoginsAgree(t.after, vkId, autoconfirm, attempts[1..]);
      var rest := LoginAll(t.after, vkId, autoconfirm, attempts[1..]);
      if t.result.Success? {
        // the first login linked the id, so the rest of the run left the storage alone
        assert rest.after == t.after;
      } else {
        assert t.after == db;
      }
      var run := LoginAll(db, vkId, autoconfirm, attempts);
      assert run.results == [t.result] + rest.results;
      forall i | 0 <= i < |run.results| && run.results[i].Success?
        ensures vkId in run.after.vkUid && run.results[i].value == run.after.vkUid[vkId]
      {
        if i > 0 {
          assert run.results[i] == rest.results[i - 1];
        }
      }
    }
  }

  // ---------------------------------------------------------------------------
  // The verify callback of getStrategy (library.js:113-137)
  // ---------------------------------------------------------------------------

  /** The profile that passport-vkontakte hands to the callback; "" is an empty or missing string. */
  datatype Profile = Profile(
    id: string,
    username: string,
    displayName: string,
    emails: Option<seq<string>>,   // None: the profile has no own `emails` property
    photos: seq<string>)           // the `value` of each photo

  const NO_REPLY_DOMAIN := "@users.noreply.vkontakte.com"

  /** The address made up for a profile that discloses no email (library.js:126). */
  function FallbackEmail(p: Profile): (r: string)
    ensures |r| >= |NO_REPLY_DOMAIN| && r[|r| - |NO_REPLY_DOMAIN|..] == NO_REPLY_DOMAIN
    ensures r[..|r| - |NO_REPLY_DOMAIN|] == if p.username != "" then p.username else p.id
  {
    (if p.username != "" then p.username else p.id) + NO_REPLY_DOMAIN
  }

  /** The email the callback logs in with (library.js:124-126). */
  function EmailFor(p: Profile): (r: Result<string, Error>)
    ensures p.emails.Some? && p.emails.value != [] ==> r == Success(p.emails.value[0])
    ensures p.emails.Some? && p.emails.value == [] ==> r.Failure? && r.error.TypeError?
    ensures p.emails.None? && p.username != "" ==> r == Success(p.username + NO_REPLY_DOMAIN)
    ensures p.emails.None? && p.username == "" ==> r == Success(p.id + NO_REPLY_DOMAIN)
  {
    match p.emails
    case Some(list) =>
      if list != [] then Success(list[0]) else Failure(TypeError("profile.emails[0] is undefined"))
    case None => Success(FallbackEmail(p))
  }

  /** Made-up addresses of profiles with different local parts never coincide. */
  lemma {:induction false} FallbackEmailInjective(a: string, b: string)
    ensures a + NO_REPLY_DOMAIN == b + NO_REPLY_DOMAIN ==> a == b
  {
    if a + NO_REPLY_DOMAIN == b + NO_REPLY_DOMAIN {
      assert |a| == |b|;
      assert a == (a + NO_REPLY_DOMAIN)[..|a|];
      assert b == (b + NO_REPLY_DOMAIN)[..|b|];
    }
  }

  /** So two email-less VK profiles are never merged into each other's account by their made-up address. */
  lemma FallbackEmailsDistinct(p: Profile, q: Profile)
    requires p.emails.None? && q.emails.None?
    requires (if p.username != "" then p.username else p.id) != (if q.username != "" then q.username else q.id)
    ensures EmailFor(p) != EmailFor(q)
  {
    FallbackEmailInjective(if p.username != "" then p.username else p.id,
                           if q.username != "" then q.username else q.id);
  }

  /** The logged-in user, if the request carries one: `req.user` and its `uid` as own properties. */
  datatype SessionUser = SessionUser(uid: Option<int>)
  datatype Request = Request(user: Option<SessionUser>)

  /** The test of library.js:115: a `user` with a `uid` greater than 0. */
  function SessionUid(req: Request): (r: Option<Uid>)
    ensures r.Some? ==> r.value > 0 && req.user == Some(SessionUser(Some(r.value)))
    ensures r.None? <==> req.user.None? || req.user.value.uid.None? || req.user.value.uid.value <= 0
  {
    if req.user.Some? && req.user.value.uid.Some? && req.user.value.uid.value > 0
    then Some(req.user.value.uid.value) else None
  }

  /** `authenticationController.onSuccessfulLogin` then `done(err, user)`. */
  function AfterHook(uid: Uid, hook: Option<Error>): (r: Result<Uid, Error>)
    ensures r.Failure? <==> hook.Some?
    ensures r.Failure? ==> r.error == hook.value
    ensures r.Success? ==> r.value == uid
  {
    if hook.Some? then Failure(hook.value) else Success(uid)
  }

  function VerifySpec(db: Db, autoconfirm: bool, req: Request, p: Profile,
                      faults: LoginFaults, hook: Option<Error>): (r: Transition)
    ensures r.result.Success? ==> p.id in r.after.vkUid && r.after.vkUid[p.id] == r.result.value
    ensures SessionUid(req).Some? ==> r.after.nextUid == db.nextUid
    // without a session, a failure that is not the hook's comes before any write
    ensures SessionUid(req).None? && r.result.Failure? && hook.None? ==> r.after == db
    ensures r.after.emailUid == db.emailUid
  {
    match SessionUid(req)
    case Some(uid) => Transition(AfterHook(uid, hook), Link(db, p.id, uid))
    case None =>
      match EmailFor(p)
      case Failure(e) => Transition(Failure(e), db)
      case Success(email) =>
        if p.photos == [] then Transition(Failure(TypeError("profile.photos[0] is undefined")), db)
        else
          var t := LoginSpec(db, p.id, p.displayName, email, p.photos[0], autoconfirm, faults);
          if t.result.Failure? then t else Transition(AfterHook(t.result.value, hook), t.after)
  }

  /**
   * A request that already carries a logged-in user links the VK id to that
   * uid with the two link writes and nothing else: no lookup, no email, no
   * account, no confirmation and no avatar.
   */
  lemma SessionBranch(db: Db, autoconfirm: bool, req: Request, p: Profile,
                      faults: LoginFaults, hook: Option<Error>)
    requires SessionUid(req).Some?
    ensures var uid := req.user.value.uid.value;
            var t := VerifySpec(db, autoconfirm, req, p, faults, hook);
            && t.result == (if hook.Some? then Failure(hook.value) else Success(uid))
            && t.after.vkUid == db.vkUid[p.id := uid]
            && t.after.users == db.users[uid := Record(db, uid).(vkontakteid := Some(p.id))]
            && t.after.emailUid == db.emailUid
            && t.after.notValidated == db.notValidated
            && t.after.nextUid == db.nextUid
  {
  }

  /** Without a logged-in user, the callback logs in with the derived email and the first photo. */
  lemma FreshLoginBranch(db: Db, autoconfirm: bool, req: Request, p: Profile,
                         faults: LoginFaults, hook: Option<Error>)
    requires SessionUid(req).None?
    ensures var t := VerifySpec(db, autoconfirm, req, p, faults, hook);
            if EmailFor(p).Failure? || p.photos == [] then
              t.result.Failure? && t.result.error.TypeError? && t.after == db
            else
              var l := LoginSpec(db, p.id, p.displayName, EmailFor(p).value, p.photos[0], autoconfirm, faults);
              && t.after == l.after
              && t.result == (if l.result.Failure? then l.result else AfterHook(l.result.value, hook))
  {
  }

  /** The callback keeps the allocator's invariant, given that a session names an allocated account. */
  lemma VerifyPreservesValid(db: Db, autoconfirm: bool, req: Request, p: Profile,
                             faults: LoginFaults, hook: Option<Error>)
    requires Valid(db)
    requires SessionUid(req).Some? ==> SessionUid(req).value < db.nextUid
    ensures Valid(VerifySpec(db, autoconfirm, req, p, faults, hook).after)
  {
    if SessionUid(req).None? && EmailFor(p).Success? && p.photos != [] {
      LoginPreservesValid(db, p.id, p.displayName, EmailFor(p).value, p.photos[0], autoconfirm, faults);
    }
  }

  // ---------------------------------------------------------------------------
  // Vkontakte.deleteUserData (library.js:228-247)
  // ---------------------------------------------------------------------------

  /** The failures the three steps of the unlink waterfall may report. */
  datatype UnlinkFaults = UnlinkFaults(read: Option<Error>, hashDelete: Option<Error>, fieldDelete: Option<Error>)

  const NO_UNLINK_FAULTS := UnlinkFaults(None, None, None)

  /** `db.deleteObjectField('vkontakteid:uid', field)`: a missing field name deletes nothing. */
  function DeleteLink(db: Db, field: Option<string>): (r: Db)
    ensures field.None? ==> r == db
    ensures field.Some? ==> r.vkUid.Keys == db.vkUid.Keys - {field.value}
    ensures forall k :: k in r.vkUid ==> r.vkUid[k] == db.vkUid[k]
    ensures r.users == db.users && r.emailUid == db.emailUid && r.notValidated == db.notValidated
    ensures r.nextUid == db.nextUid
  {
    if field.Some? then db.(vkUid := db.vkUid - {field.value}) else db
  }

  /** `db.deleteObjectField('user:<uid>', 'vkontakteid')`. */
  function DeleteBackReference(db: Db, uid: Uid): (r: Db)
    ensures Record(r, uid) == Record(db, uid).(vkontakteid := None)
    ensures r.users.Keys == db.users.Keys
    ensures forall u :: u in db.users && u != uid ==> r.users[u] == db.users[u]
    ensures r.vkUid == db.vkUid && r.emailUid == db.emailUid && r.notValidated == db.notValidated
    ensures r.nextUid == db.nextUid
  {
    if uid in db.users then db.(users := db.users[uid := db.users[uid].(vkontakteid := None)]) else db
  }

  function UnlinkSpec(db: Db, uid: Uid, faults: UnlinkFaults): (r: Transition)
    ensures r.result.Success? ==> r.result.value == uid && Record(r.after, uid).vkontakteid == None
    ensures r.result.Success? && Record(db, uid).vkontakteid.Some? ==> Record(db, uid).vkontakteid.value !in r.after.vkUid
    ensures r.result.Failure? ==> r.after.users == db.users
    ensures r.after.vkUid.Keys <= db.vkUid.Keys
    ensures r.after.emailUid == db.emailUid && r.after.notValidated == db.notValidated && r.after.nextUid == db.nextUid
  {
    if faults.read.Some? then Transition(Failure(faults.read.value), db)
    else
      var stored := Record(db, uid).vkontakteid;
      if faults.hashDelete.Some? then Transition(Failure(faults.hashDelete.value), db)
      else
        var db1 := DeleteLink(db, stored);
        if faults.fieldDelete.Some? then Transition(Failure(faults.fieldDelete.value), db1)
        else Transition(Success(uid), DeleteBackReference(db1, uid))
  }

  /** A successful unlink removes the stored VK id's hash entry and the back-reference, and nothing else. */
  lemma UnlinkRemovesBothDirections(db: Db, uid: Uid)
    ensures var stored := Record(db, uid).vkontakteid;
            var t := UnlinkSpec(db, uid, NO_UNLINK_FAULTS);
            && t.result == Success(uid)
            && t.after.vkUid == (if stored.Some? then db.vkUid - {stored.value} else db.vkUid)
            && Record(t.after, uid) == Record(db, uid).(vkontakteid := None)
            && t.after.users.Keys == db.users.Keys
            && (forall u :: u in db.users && u != uid ==> t.after.users[u] == db.users[u])
            && t.after.emailUid == db.emailUid
            && t.after.notValidated == db.notValidated
            && t.after.nextUid == db.nextUid
  {
  }

  /** Unlinking deletes only, so it keeps the allocator's invariant. */
  lemma UnlinkPreservesValid(db: Db, uid: Uid, faults: UnlinkFaults)
    requires Valid(db)
    ensures Valid(UnlinkSpec(db, uid, faults).after)
  {
  }

  /** A failing step returns its error and runs none of the later steps. */
  lemma UnlinkStopsAtFirstError(db: Db, uid: Uid, faults: UnlinkFaults)
    ensures var t := UnlinkSpec(db, uid, faults);
            && (faults.read.Some? ==> t == Transition(Failure(faults.read.value), db))
            && (faults.read.None? && faults.hashDelete.Some? ==> t == Transition(Failure(faults.hashDelete.value), db))
            && (faults.read.None? && faults.hashDelete.None? && faults.fieldDelete.Some? ==>
                  t == Transition(Failure(faults.fieldDelete.value), DeleteLink(db, Record(db, uid).vkontakteid)))
  {
  }

  /** Unlinking an account a second time changes nothing. */
  lemma UnlinkIdempotent(db: Db, uid: Uid)
    ensures var once := UnlinkSpec(db, uid, NO_UNLINK_FAULTS).after;
            UnlinkSpec(once, uid, NO_UNLINK_FAULTS) == Transition(Success(uid), once)
  {
  }

  // ---------------------------------------------------------------------------
  // What the links do not guarantee
  // ---------------------------------------------------------------------------

  /**
   * The merge path does not keep links one-to-one: an account already linked
   * to VK id "A" that is merged by email with VK id "B" keeps the "A" entry,
   * and unlinking it afterwards removes only "B", so "A" still logs into it.
   */
  lemma MergeLeavesStaleLink()
    ensures var db := Db(map["A" := 1], map[1 := NO_FIELDS.(email := Some("a@example.com"), vkontakteid := Some("A"))],
                         map["a@example.com" := 1], {}, 2);
            var merged := LoginSpec(db, "B", "b", "a@example.com", "", false, NO_LOGIN_FAULTS);
            var unlinked := UnlinkSpec(merged.after, 1, NO_UNLINK_FAULTS);
            && merged.result == Success(1)
            && merged.after.vkUid == map["A" := 1, "B" := 1]
            && Record(merged.after, 1).vkontakteid == Some("B")
            && unlinked.after.vkUid == map["A" := 1]
            && LoginSpec(unlinked.after, "A", "a", "x@example.com", "", false, NO_LOGIN_FAULTS).result == Success(1)
  {
  }

  /**
   * The session branch does not keep links one-to-one either: a logged-in
   * user 2 who connects VK id "A", already linked to user 1, takes over the
   * hash entry while user 1 keeps its back-reference; unlinking user 1 then
   * deletes the entry user 2 now relies on.
   */
  lemma SessionTakeoverLeavesStaleBackReference()
    ensures var db := Db(map["A" := 1], map[1 := NO_FIELDS.(vkontakteid := Some("A")), 2 := NO_FIELDS],
                         map[], {}, 3);
            var p := Profile("A", "", "a", None, ["pic"]);
            var linked := VerifySpec(db, false, Request(Some(SessionUser(Some(2)))), p, NO_LOGIN_FAULTS, None);
            var unlinked := UnlinkSpec(linked.after, 1, NO_UNLINK_FAULTS);
            && linked.result == Success(2)
            && linked.after.vkUid == map["A" := 2]
            && Record(linked.after, 1).vkontakteid == Some("A")
            && Record(linked.after, 2).vkontakteid == Some("A")
            && unlinked.result == Success(1)
            && "A" !in unlinked.after.vkUid
            && Record(unlinked.after, 2).vkontakteid == Some("A")
  {
  }
}
