/** The mock authentication context: a signed-in user kept in browser storage
    under one key, a fixed user table and a fixed demo password. */
module Auth {
  import opened Common
  import opened Records

  const StorageKey: string := "medicode_user"
  const DemoPassword: string := "password123"

  /** The four accounts that can sign in. */
  const MockUsersDB: seq<User> := [
    User("doc-01", "doctor@medicode.com", "Dr. Evelyn Reed", "doctor", None),
    User("adm-01", "admin@medicode.com", "Arthur Vance", "admin", None),
    User("cod-01", "coder@medicode.com", "Jia Li", "medical_coder", None),
    User("aud-01", "auditor@medicode.com", "Kenji Tanaka", "auditor", None)
  ]

  /** `db.find(u => u.email === email)`: the first user with that email. */
  function FindByEmail(db: seq<User>, email: string): (r: Option<User>)
    ensures r.Some? ==> r.value in db && r.value.email == email
    ensures r.None? <==> forall u :: u in db ==> u.email != email
  {
    if db == [] then None
    else if db[0].email == email then Some(db[0])
    else FindByEmail(db[1..], email)
  }

  /** The user a sign-in with these credentials yields, if any. */
  function Authenticate(email: string, password: string): Option<User>
  {
    var found := FindByEmail(MockUsersDB, email);
    if found.Some? && password == DemoPassword then found else None
  }

  /** A sign-in succeeds iff some account has that email and the password is the demo
      password; the user signed in is then that account. */
  lemma AuthenticateSpec(email: string, password: string)
    ensures Authenticate(email, password).Some? <==>
              (exists u :: u in MockUsersDB && u.email == email) && password == DemoPassword
    ensures Authenticate(email, password).Some? ==>
              Authenticate(email, password).value in MockUsersDB && Authenticate(email, password).value.email == email
  {
  }

  /** No two accounts share an email, so the account found is the only one with it. */
  lemma MockEmailsDistinct()
    ensures forall i, j :: 0 <= i < j < |MockUsersDB| ==> MockUsersDB[i].email != MockUsersDB[j].email
  {
  }

  /** Each account signs in with the demo password and never with another one. */
  lemma EveryAccountSignsIn(k: nat, password: string)
    requires k < |MockUsersDB|
    ensures Authenticate(MockUsersDB[k].email, password) == (if password == DemoPassword then Some(MockUsersDB[k]) else None)
  {
    MockEmailsDistinct();
    var email := MockUsersDB[k].email;
    assert FindByEmail(MockUsersDB, email) == Some(MockUsersDB[k]) by {
      var r := FindByEmail(MockUsersDB, email);
      assert r.Some? by { assert MockUsersDB[k] in MockUsersDB; }
      var i :| 0 <= i < |MockUsersDB| && MockUsersDB[i] == r.value;
      assert MockUsersDB[i].email == email;
    }
  }

  class AuthProvider {
    var user: Option<User>
    var isLoading: bool
    /** Browser storage; serialisation to JSON text is not modelled. */
    var storage: map<string, User>

    constructor (saved: map<string, User>)
      ensures user == None && isLoading && storage == saved
    {
      user := None;
      isLoading := true;
      storage := saved;
    }

    /** The mount effect: restore the saved user when the key is present. */
    method Mount()
      modifies this
      ensures StorageKey in old(storage) ==> user == Some(old(storage)[StorageKey])
      ensures StorageKey !in old(storage) ==> user == old(user)
      ensures !isLoading && storage == old(storage)
    {
      if StorageKey in storage {
        user := Some(storage[StorageKey]);
      }
      isLoading := false;
    }

    /** `login`: on success the found account is signed in and saved under the key;
        on failure nothing but `isLoading` changes, and that is false once it returns. */
    method Login(email: string, password: string) returns (ok: bool)
      modifies this
      ensures ok <==> Authenticate(email, password).Some?
      ensures ok ==> user == Authenticate(email, password) &&
                     storage == old(storage)[StorageKey := Authenticate(email, password).value]
      ensures !ok ==> user == old(user) && storage == old(storage)
      ensures !isLoading
    {
      isLoading := true;
      var found := FindByEmail(MockUsersDB, email);
      if found.Some? && password == DemoPassword {
        user := found;
        storage := storage[StorageKey := found.value];
        ok := true;
      } else {
        ok := false;
      }
      isLoading := false;
    }

    /** `logout`: nobody is signed in and the key is gone. */
    method Logout()
      modifies this
      ensures user == None && storage == old(storage) - {StorageKey}
      ensures StorageKey !in storage
      ensures isLoading == old(isLoading)
    {
      user := None;
      storage := storage - {StorageKey};
    }
  }

  /** A sign-in followed by a reload restores the account that signed in; a failed
      sign-in leaves storage alone, so the reload restores whatever session was saved
      before. A sign-out followed by a reload restores nobody. */
  method LoginSurvivesReload(saved: map<string, User>, email: string, password: string)
    returns (restored: Option<User>)
    ensures Authenticate(email, password).Some? ==> restored == Authenticate(email, password)
    ensures Authenticate(email, password).None? ==>
              restored == if StorageKey in saved then Some(saved[StorageKey]) else None
  {
    var auth := new AuthProvider(saved);
    auth.Mount();
    var ok := auth.Login(email, password);
    var reloaded := new AuthProvider(auth.storage);
    reloaded.Mount();
    restored := reloaded.user;
  }

  method LogoutSurvivesReload(saved: map<string, User>) returns (restored: Option<User>)
    ensures restored == None
  {
    var auth := new AuthProvider(saved);
    auth.Mount();
    auth.Logout();
    var reloaded := new AuthProvider(auth.storage);
    reloaded.Mount();
    restored := reloaded.user;
  }
}
