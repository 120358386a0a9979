/**
 * The authentication store: whether someone is logged in and with which
 * cédula, mirrored in the `userCedula` key of local storage.
 */
module AuthContext {
  import opened Wrappers
  import opened BrowserStorage

  /** The one storage key the auth store uses. */
  const UserKey: string := "userCedula"

  /**
   * The cédula the mount effect restores: the raw text under `userCedula`,
   * provided it is not the empty string, which JavaScript treats as false.
   */
  function SavedCedula(items: map<string, Value>): (c: Option<string>)
    ensures c.Some? ==> c.value != ""
  {
    if UserKey in items && items[UserKey].TextValue? && items[UserKey].text != ""
    then Some(items[UserKey].text)
    else None
  }

  /** A login is restored after a reload exactly when the cédula was not empty. */
  lemma LoginThenReload(items: map<string, Value>, cedula: string)
    ensures SavedCedula(items[UserKey := TextValue(cedula)]) == (if cedula == "" then None else Some(cedula))
  {
  }

  /** After a logout nothing is restored. */
  lemma LogoutThenReload(items: map<string, Value>)
    ensures SavedCedula(items - {UserKey}) == None
  {
  }

  class AuthProvider {
    var isAuthenticated: bool
    var userCedula: Option<string>
    const storage: LocalStorage

    /** Being authenticated and having a cédula go together. */
    ghost predicate Valid()
      reads this
    {
      isAuthenticated <==> userCedula.Some?
    }

    /** The initial state before the mount effect runs. */
    constructor (storage: LocalStorage)
      ensures Valid()
      ensures !isAuthenticated && userCedula == None
      ensures this.storage == storage
    {
      isAuthenticated := false;
      userCedula := None;
      this.storage := storage;
    }

    /** The mount effect: resume the saved login, if there is a non-empty one. */
    method RestoreOnMount()
      requires Valid()
      modifies this
      ensures Valid()
      ensures SavedCedula(storage.items).Some? ==> isAuthenticated && userCedula == SavedCedula(storage.items)
      ensures SavedCedula(storage.items).None? ==> isAuthenticated == old(isAuthenticated) && userCedula == old(userCedula)
    {
      var saved := storage.GetItem(UserKey);
      if saved.Some? && saved.value.TextValue? && saved.value.text != "" {
        isAuthenticated := true;
        userCedula := Some(saved.value.text);
      }
    }

    /** Log in: remember the cédula in memory and under `userCedula`; no other key changes. */
    method Login(cedula: string)
      modifies this, storage
      ensures Valid()
      ensures isAuthenticated && userCedula == Some(cedula)
      ensures storage.items == old(storage.items)[UserKey := TextValue(cedula)]
    {
      isAuthenticated := true;
      userCedula := Some(cedula);
      storage.SetItem(UserKey, TextValue(cedula));
    }

    /** Log out: forget the cédula in memory and in storage; no other key changes. */
    method Logout()
      modifies this, storage
      ensures Valid()
      ensures !isAuthenticated && userCedula == None
      ensures storage.items == old(storage.items) - {UserKey}
    {
      isAuthenticated := false;
      userCedula := None;
      storage.RemoveItem(UserKey);
    }
  }

}
