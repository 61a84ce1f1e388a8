/**
 * The host storage as one object whose maps the plugin's operations update
 * in place, step by step, in the order library.js issues its calls.  Every
 * operation is proved to leave the storage, and to return, what the
 * corresponding function of module Accounts says.
 */
module HostStore {
  import opened Wrappers
  import opened Accounts
  import PluginSettings

  class Store {
    var vkUid: map<string, Uid>          // the `vkontakteid:uid` hash
    var users: map<Uid, UserRecord>      // `user:<uid>` records
    var emailUid: map<string, Uid>       // the index behind `User.getUidByEmail`
    var notValidated: set<Uid>           // `users:notvalidated`
    var nextUid: Uid                     // the allocator behind `User.create`

    function State(): Db
      reads this
    {
      Db(vkUid, users, emailUid, notValidated, nextUid)
    }

    constructor (db: Db)
      ensures State() == db
    {
      vkUid, users, emailUid, notValidated, nextUid := db.vkUid, db.users, db.emailUid, db.notValidated, db.nextUid;
    }

    // -------------------------------------------------------------------------
    // Host calls
    // -------------------------------------------------------------------------

    /** `Vkontakte.getUidByVkontakteId` (library.js:210-217): the linked uid, `null`, or the storage error. */
    method GetUidByVkontakteId(vkId: string, fault: Option<Error>) returns (r: Result<Option<Uid>, Error>)
      ensures fault.Some? ==> r == Failure(fault.value)
      ensures fault.None? ==> r.Success? && (r.value.Some? <==> vkId in vkUid)
      ensures fault.None? && vkId in vkUid ==> r.value.value == vkUid[vkId]
    {
      if fault.Some? {
        return Failure(fault.value);
      }
      if vkId in vkUid {
        r := Success(Some(vkUid[vkId]));
      } else {
        r := Success(None);
      }
    }

    /** `User.getUidByEmail`. */
    method GetUidByEmail(email: string, fault: Option<Error>) returns (r: Result<Option<Uid>, Error>)
      ensures fault.Some? ==> r == Failure(fault.value)
      ensures fault.None? ==> r == Success(UidByEmail(State(), email))
    {
      if fault.Some? {
        return Failure(fault.value);
      }
      if email in emailUid {
        r := Success(Some(emailUid[email]));
      } else {
        r := Success(None);
      }
    }

    /** `User.getUserField(uid, 'vkontakteid')`. */
    method GetVkontakteId(uid: Uid, fault: Option<Error>) returns (r: Result<Option<string>, Error>)
      ensures fault.Some? ==> r == Failure(fault.value)
      ensures fault.None? ==> r == Success(Record(State(), uid).vkontakteid)
    {
      if fault.Some? {
        return Failure(fault.value);
      }
      r := Success(if uid in users then users[uid].vkontakteid else None);
    }

    /** `User.create({ username, email })`: allocates the next uid, or reports the host's error. */
    method Create(username: string, email: string, fault: Option<Error>) returns (r: Result<Uid, Error>)
      modifies this
      ensures fault.Some? ==> r == Failure(fault.value) && State() == old(State())
      ensures fault.None? ==> r == Success(old(nextUid)) && State() == Created(old(State()), username, email)
    {
      if fault.Some? {
        return Failure(fault.value);
      }
      var uid := nextUid;
      users := users[uid := NO_FIELDS.(username := Some(username), email := Some(email))];
      nextUid := nextUid + 1;
      r := Success(uid);
    }

    /** `User.setUserField(uid, field, value)`. */
    method SetUserField(uid: Uid, w: FieldWrite)
      modifies this
      ensures State() == Accounts.SetUserField(old(State()), uid, w)
    {
      var rec := if uid in users then users[uid] else NO_FIELDS;
      users := users[uid := Apply(rec, w)];
    }

    /** `db.setObjectField('vkontakteid:uid', vkId, uid)`. */
    method SetLink(vkId: string, uid: Uid)
      modifies this
      ensures State() == old(State()).(vkUid := old(vkUid)[vkId := uid])
    {
      vkUid := vkUid[vkId := uid];
    }

    /** `db.sortedSetRemove('users:notvalidated', uid)`. */
    method RemoveNotValidated(uid: Uid)
      modifies this
      ensures State() == old(State()).(notValidated := old(notValidated) - {uid})
    {
      notValidated := notValidated - {uid};
    }

    /** `db.deleteObjectField('vkontakteid:uid', field)`: a `null` field deletes nothing. */
    method DeleteLink(field: Option<string>, fault: Option<Error>) returns (err: Option<Error>)
      modifies this
      ensures err == fault
      ensures State() == if fault.Some? then old(State()) else Accounts.DeleteLink(old(State()), field)
    {
      if fault.Some? {
        return fault;
      }
      if field.Some? {
        vkUid := vkUid - {field.value};
      }
      err := None;
    }

    /** `db.deleteObjectField('user:<uid>', 'vkontakteid')`. */
    method DeleteBackReference(uid: Uid, fault: Option<Error>) returns (err: Option<Error>)
      modifies this
      ensures err == fault
      ensures State() == if fault.Some? then old(State()) else Accounts.DeleteBackReference(old(State()), uid)
    {
      if fault.Some? {
        return fault;
      }
      if uid in users {
        users := users[uid := users[uid].(vkontakteid := None)];
      }
      err := None;
    }

    // -------------------------------------------------------------------------
    // The plugin's operations
    // -------------------------------------------------------------------------

    /** The `success` closure of `login` (library.js:168-187). */
    method Finish(vkId: string, uid: Uid, picture: string, autoconfirm: bool)
      modifies this
      ensures State() == Accounts.Finish(old(State()), vkId, uid, picture, autoconfirm)
    {
      SetUserField(uid, EmailConfirmed(autoconfirm));
      if autoconfirm {
        RemoveNotValidated(uid);
      }
      SetUserField(uid, VkontakteId(vkId));
      SetLink(vkId, uid);
      if picture != "" {
        SetUserField(uid, UploadedPicture(picture));
        SetUserField(uid, Picture(picture));
      }
    }

    /** `Vkontakte.login` (library.js:154-208). */
    method Login(settings: PluginSettings.Settings, vkId: string, displayName: string, email: string,
                 picture: string, faults: LoginFaults) returns (r: Result<Uid, Error>)
      modifies this
      ensures Transition(r, State())
              == LoginSpec(old(State()), vkId, displayName, email, picture, settings.autoconfirm, faults)
    {
      var linked := GetUidByVkontakteId(vkId, faults.lookup);
      if linked.Failure? {
        return Failure(linked.error);
      }
      if linked.value.Some? {
        return Success(linked.value.value);   // existing user
      }
      var byEmail := GetUidByEmail(email, faults.byEmail);
      if byEmail.Failure? {
        return Failure(byEmail.error);
      }
      var uid: Uid;
      if !HasAccount(byEmail.value) {
        var created := Create(displayName, email, faults.create);
        if created.Failure? {
          return Failure(created.error);
        }
        uid := created.value;
      } else {
        uid := byEmail.value.value;           // existing account: merge
      }
      Finish(vkId, uid, picture, settings.autoconfirm);
      r := Success(uid);
    }

    /** The verify callback that `getStrategy` hands to the OAuth strategy (library.js:113-137). */
    method Verify(settings: PluginSettings.Settings, req: Request, profile: Profile,
                  faults: LoginFaults, hook: Option<Error>) returns (r: Result<Uid, Error>)
      modifies this
      ensures Transition(r, State()) == VerifySpec(old(State()), settings.autoconfirm, req, profile, faults, hook)
    {
      var session := SessionUid(req);
      if session.Some? {
        SetUserField(session.value, VkontakteId(profile.id));
        SetLink(profile.id, session.value);
        return AfterHook(session.value, hook);
      }
      var email := EmailFor(profile);
      if email.Failure? {
        return Failure(email.error);
      }
      if profile.photos == [] {
        return Failure(TypeError("profile.photos[0] is undefined"));
      }
      r := Login(settings, profile.id, profile.displayName, email.value, profile.photos[0], faults);
      if r.Success? {
        r := AfterHook(r.value, hook);
      }
    }

    /** `Vkontakte.deleteUserData` (library.js:228-247): read the stored VK id, then two deletes. */
    method DeleteUserData(uid: Uid, faults: UnlinkFaults) returns (r: Result<Uid, Error>)
      modifies this
      ensures Transition(r, State()) == UnlinkSpec(old(State()), uid, faults)
    {
      var stored := GetVkontakteId(uid, faults.read);
      if stored.Failure? {
        return Failure(stored.error);
      }
      var err := DeleteLink(stored.value, faults.hashDelete);
      if err.Some? {
        return Failure(err.value);
      }
      err := DeleteBackReference(uid, faults.fieldDelete);
      if err.Some? {
        return Failure(err.value);
      }
      r := Success(uid);
    }
  }
}
