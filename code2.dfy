/** sandbox/code2.py: a login → password table (`UTILISATEURS`) with a
    lookup and a password change that updates the table in place. */
module Passwords {

  /** `login` is a key of the table and its password is `motDePasse`. */
  predicate Authenticates(table: map<string, string>, login: string, motDePasse: string) {
    login in table && table[login] == motDePasse
  }

  /** The table after `changer_mdp(login, ancien, nouveau)`.  The entry for
      `login` is replaced exactly when `ancien` authenticates; afterwards
      `nouveau` authenticates and, if it differs, `ancien` no longer does.
      Otherwise the table is unchanged.  No key is ever added or removed and
      no other entry changes. */
  function Changed(table: map<string, string>, login: string, ancien: string, nouveau: string): (r: map<string, string>)
    ensures Authenticates(table, login, ancien) ==>
              Authenticates(r, login, nouveau) && (ancien != nouveau ==> !Authenticates(r, login, ancien))
    ensures !Authenticates(table, login, ancien) ==> r == table
    ensures r.Keys == table.Keys && |r| == |table|
    ensures forall u | u in table && u != login :: r[u] == table[u]
  {
    if Authenticates(table, login, ancien) then table[login := nouveau] else table
  }

  class Users {
    var table: map<string, string>

    /** The module's initial table. */
    constructor ()
      ensures table == map["admin" := "1234", "user" := "abcd"]
    {
      table := map["admin" := "1234", "user" := "abcd"];
    }

    /** `authentifier`: scans the entries for one whose login and password
        both match. */
    method Authentifier(login: string, motDePasse: string) returns (ok: bool)
      ensures ok <==> Authenticates(table, login, motDePasse)
    {
      var pending := table.Keys;
      while pending != {}
        invariant pending <= table.Keys
        invariant forall u | u in table.Keys - pending :: !(u == login && table[u] == motDePasse)
        decreases |pending|
      {
        var u :| u in pending;
        if u == login && table[u] == motDePasse {
          return true;
        }
        pending := pending - {u};
      }
      ok := false;
    }

    /** `changer_mdp`: replaces the password of `login` if `ancien` is its
        current one. */
    method ChangerMdp(login: string, ancien: string, nouveau: string)
      modifies this`table
      ensures table == Changed(old(table), login, ancien, nouveau)
    {
      var ok := Authentifier(login, ancien);
      if ok {
        table := table[login := nouveau];
      }
    }
  }
}
