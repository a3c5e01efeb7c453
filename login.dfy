/** Users, credential matching and the login session of `login.py`: the
    dialog accepts a user name and password only when some user in
    `users.json` has exactly that pair, and the session file
    `latest_user.json` remembers who logged in last. */
module Credentials {
  import opened Common
  import opened Text

  /** One entry of `users.json`. */
  datatype User = User(username: string, password: string, role: string)

  predicate Matches(u: User, name: string, password: string)
  {
    u.username == name && u.password == password
  }

  /** The first user with exactly this name and password, as the `for`
      loops over the users that return on the first hit find it. */
  function FirstMatch(users: seq<User>, name: string, password: string): Option<User>
  {
    if users == [] then None
    else if Matches(users[0], name, password) then Some(users[0])
    else FirstMatch(users[1..], name, password)
  }

  /** The search finds a user exactly when one matches, and what it finds
      is the earliest match. */
  lemma {:induction false} FirstMatchIsFirst(users: seq<User>, name: string, password: string)
    ensures FirstMatch(users, name, password).None? <==> forall u :: u in users ==> !Matches(u, name, password)
    ensures FirstMatch(users, name, password).Some? ==>
      exists i :: 0 <= i < |users| && users[i] == FirstMatch(users, name, password).value
        && Matches(users[i], name, password)
        && forall j :: 0 <= j < i ==> !Matches(users[j], name, password)
  {
    if users != [] && !Matches(users[0], name, password) {
      FirstMatchIsFirst(users[1..], name, password);
      assert forall u :: u in users ==> u == users[0] || u in users[1..];
      if FirstMatch(users, name, password).Some? {
        var i :| 0 <= i < |users[1..]| && users[1..][i] == FirstMatch(users, name, password).value
          && Matches(users[1..][i], name, password)
          && forall j :: 0 <= j < i ==> !Matches(users[1..][j], name, password);
        assert forall j :: 0 <= j < i + 1 ==> users[j] == if j == 0 then users[0] else users[1..][j - 1];
        assert users[i + 1] == users[1..][i];
      }
    }
  }

  // --------------------------------------------------------- session

  /** the key of `latest_user.json` */
  const SessionKey := "last_user"

  /** What `load_session` returns for a session file: nothing without a
      file, else what it holds under "last_user" (nothing when that key is
      missing). */
  function SessionUser(stored: Option<Json>): (r: Option<Value>)
    ensures stored.None? ==> r.None?
    ensures r.Some? <==> stored.Some? && SessionKey in stored.value
    ensures r.Some? ==> r.value == stored.value[SessionKey]
  {
    if stored.None? then None
    else if SessionKey in stored.value then Some(stored.value[SessionKey])
    else None
  }

  /** The file `save_session(u)` writes loads back as u, and after
      `clear_session` nothing loads. */
  lemma SessionRoundTrip(username: string)
    ensures SessionUser(Some(map[SessionKey := Str(username)])) == Some(Str(username))
    ensures SessionUser(None).None?
  {
  }

  /** `latest_user.json`: absent, or a JSON object.  A file that does not
      parse reads like an absent one. */
  class SessionStore {
    var stored: Option<Json>

    constructor (stored: Option<Json>)
      ensures this.stored == stored
    {
      this.stored := stored;
    }

    /** `load_session` */
    function Load(): Option<Value>
      reads this
    {
      SessionUser(stored)
    }

    /** `save_session` */
    method Save(username: string)
      modifies this
      ensures stored == Some(map[SessionKey := Str(username)])
      ensures Load() == Some(Str(username))
    {
      stored := Some(map[SessionKey := Str(username)]);
    }

    /** `clear_session` */
    method Clear()
      modifies this
      ensures stored.None? && Load().None?
    {
      stored := None;
    }
  }

  /** `LoginDialog`: the users of `users.json`, a user field prefilled from
      the session, and a password field. */
  class LoginDialog {
    /** the users of `users.json`; empty when its "users" key is missing */
    const users: seq<User>
    const session: SessionStore
    var userText: string
    var passText: string
    /** whether the dialog has closed, with OK (`accepted`) or not */
    var accepted: bool
    var rejected: bool

    /** Without `users.json` the dialog rejects itself at once; otherwise
        it prefills the user field with the last session's user. */
    constructor (usersFile: Option<seq<User>>, session: SessionStore)
      ensures this.users == (if usersFile.Some? then usersFile.value else [])
      ensures this.session == session && passText == "" && !accepted
      ensures rejected <==> usersFile.None?
      ensures userText == if usersFile.Some? && session.Load().Some? && session.Load().value.Str? then session.Load().value.s else ""
    {
      this.session := session;
      users := if usersFile.Some? then usersFile.value else [];
      passText := "";
      accepted := false;
      rejected := usersFile.None?;
      var last := session.Load();
      userText := if usersFile.Some? && last.Some? && last.value.Str? then last.value.s else "";
    }

    /** `handle_login`: the user name is stripped and the password is not;
        the dialog closes with OK and the session remembers the name exactly
        when some user has that pair; otherwise nothing changes. */
    method HandleLogin()
      modifies this, session
      ensures userText == old(userText) && passText == old(passText) && rejected == old(rejected)
      ensures (exists u :: u in users && Matches(u, Strip(userText), passText)) ==>
        accepted && session.stored == Some(map[SessionKey := Str(Strip(userText))])
      ensures (forall u :: u in users ==> !Matches(u, Strip(userText), passText)) ==>
        accepted == old(accepted) && session.stored == old(session.stored)
    {
      var name := Strip(userText);
      var found := FirstMatch(users, name, passText);
      FirstMatchIsFirst(users, name, passText);
      if found.Some? {
        session.Save(name);
        accepted := true;
      }
    }
  }
}
