/**
 * What the account page shows about the VK link, and the admin menu entry
 * (library.js:77-102, 219-226).
 */
module Associations {
  import opened Wrappers
  import opened Lists
  import opened Accounts
  import HostStore

  const SERVICE_NAME := "[[sso-vk:vk]]"
  const ICON := "fa-vk"
  const PROFILE_URL_PREFIX := "https://vk.com/id"
  const DEAUTH_PATH := "/deauth/vkontakte"
  const AUTH_PATH := "/auth/vkontakte"
  const ADMIN_ROUTE := "/plugins/sso-vkontakte"

  /** One entry of `data.associations`; `deauthUrl` is absent from an unlinked entry. */
  datatype Association = Association(associated: bool, url: string, deauthUrl: Option<string>, name: string, icon: string)

  /** The entry `getAssociation` pushes for a user's stored `vkontakteid` (library.js:83-98). */
  function AssociationEntry(vkontakteid: Option<string>, baseUrl: string): (a: Association)
    ensures a.associated <==> vkontakteid.Some? && vkontakteid.value != ""
    ensures a.associated ==> a.url == PROFILE_URL_PREFIX + vkontakteid.value && a.deauthUrl == Some(baseUrl + DEAUTH_PATH)
    ensures !a.associated ==> a.url == baseUrl + AUTH_PATH && a.deauthUrl.None?
    ensures a.name == SERVICE_NAME && a.icon == ICON
  {
    if vkontakteid.Some? && vkontakteid.value != "" then
      Association(true, PROFILE_URL_PREFIX + vkontakteid.value, Some(baseUrl + DEAUTH_PATH), SERVICE_NAME, ICON)
    else
      Association(false, baseUrl + AUTH_PATH, None, SERVICE_NAME, ICON)
  }

  /** `Vkontakte.getAssociation`: one entry on success, none when reading the field fails. */
  method GetAssociation(store: HostStore.Store, uid: Uid, associations: PushList<Association>,
                        baseUrl: string, fault: Option<Error>) returns (err: Option<Error>)
    modifies associations
    ensures err == fault
    ensures associations.items == old(associations.items)
              + (if fault.Some? then [] else [AssociationEntry(Record(store.State(), uid).vkontakteid, baseUrl)])
  {
    var stored := store.GetVkontakteId(uid, fault);
    if stored.Failure? {
      return Some(stored.error);
    }
    associations.Push(AssociationEntry(stored.value, baseUrl));
    err := None;
  }

  /** A logged-in user who connects a VK profile is then shown as linked to that profile. */
  lemma SessionLinkShowsAssociated(db: Db, autoconfirm: bool, req: Request, p: Profile,
                                   faults: LoginFaults, hook: Option<Error>, baseUrl: string)
    requires SessionUid(req).Some? && p.id != ""
    ensures var uid := SessionUid(req).value;
            var after := VerifySpec(db, autoconfirm, req, p, faults, hook).after;
            AssociationEntry(Record(after, uid).vkontakteid, baseUrl)
              == Association(true, PROFILE_URL_PREFIX + p.id, Some(baseUrl + DEAUTH_PATH), SERVICE_NAME, ICON)
  {
  }

  /** After a successful unlink the account page offers to connect again. */
  lemma UnlinkShowsNotAssociated(db: Db, uid: Uid, baseUrl: string)
    ensures var after := UnlinkSpec(db, uid, NO_UNLINK_FAULTS).after;
            AssociationEntry(Record(after, uid).vkontakteid, baseUrl)
              == Association(false, baseUrl + AUTH_PATH, None, SERVICE_NAME, ICON)
  {
  }

  /** One entry of `custom_header.authentication`. */
  datatype MenuItem = MenuItem(route: string, icon: string, name: string)

  /** `Vkontakte.addMenuItem`: appends the admin page's entry. */
  method AddMenuItem(authentication: PushList<MenuItem>)
    modifies authentication
    ensures authentication.items == old(authentication.items) + [MenuItem(ADMIN_ROUTE, ICON, SERVICE_NAME)]
  {
    authentication.Push(MenuItem(ADMIN_ROUTE, ICON, SERVICE_NAME));
  }
}
