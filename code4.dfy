/** sandbox/code4.py: users, each with an optional bank account whose
    balance (`solde`) and operation log (`historique`) the account's methods
    update in place, a global user list, and transfers between accounts.
    Amounts are integers. */
module Accounts {

  /** One `historique` entry: `("DEPOT", m)` or `("RETRAIT", m)`. */
  datatype Operation = Operation(kind: string, montant: int)

  /** The fields of a `Compte`. */
  datatype AccountState = AccountState(solde: int, historique: seq<Operation>)

  /** `deposer(m)`: a negative amount changes nothing. */
  function Deposited(s: AccountState, m: int): AccountState {
    if m < 0 then s
    else AccountState(s.solde + m, s.historique + [Operation("DEPOT", m)])
  }

  /** `retirer(m)`: a negative amount or one above the balance changes nothing. */
  function Withdrawn(s: AccountState, m: int): AccountState {
    if m < 0 || m > s.solde then s
    else AccountState(s.solde - m, s.historique + [Operation("RETRAIT", m)])
  }

  /** The deposits minus the withdrawals of a log. */
  function Net(h: seq<Operation>): int {
    if h == [] then 0
    else
      var op := h[|h| - 1];
      Net(h[..|h| - 1]) + (if op.kind == "DEPOT" then op.montant else -op.montant)
  }

  /** What every account keeps: its balance is the opening one plus the net
      of its log, and every logged amount is non-negative. */
  predicate Ledger(opening: int, s: AccountState) {
    && s.solde == opening + Net(s.historique)
    && forall i | 0 <= i < |s.historique| :: s.historique[i].montant >= 0
  }

  /** Deposits and withdrawals keep `Ledger`, and a withdrawal never takes a
      non-negative balance below zero. */
  lemma LedgerKept(opening: int, s: AccountState, m: int)
    requires Ledger(opening, s)
    ensures Ledger(opening, Deposited(s, m)) && Ledger(opening, Withdrawn(s, m))
    ensures s.solde >= 0 ==> Withdrawn(s, m).solde >= 0
  {
    var op := Operation("DEPOT", m);
    assert (s.historique + [op])[..|s.historique|] == s.historique;
    var op' := Operation("RETRAIT", m);
    assert (s.historique + [op'])[..|s.historique|] == s.historique;
  }

  class Compte {
    var solde: int
    var historique: seq<Operation>

    function State(): AccountState
      reads this
    {
      AccountState(solde, historique)
    }

    constructor (solde: int)
      ensures State() == AccountState(solde, [])
    {
      this.solde := solde;
      historique := [];
    }

    method Deposer(montant: int)
      modifies this
      ensures State() == Deposited(old(State()), montant)
    {
      if montant < 0 {
        return;
      }
      solde := solde + montant;
      historique := historique + [Operation("DEPOT", montant)];
    }

    method Retirer(montant: int)
      modifies this
      ensures State() == Withdrawn(old(State()), montant)
    {
      if montant < 0 {
        return;
      }
      if montant > solde {
        return;
      }
      solde := solde - montant;
      historique := historique + [Operation("RETRAIT", montant)];
    }
  }

  class Utilisateur {
    var nom: string
    var email: string
    var age: int
    var compte: Compte?

    constructor (nom: string, email: string, age: int)
      ensures this.nom == nom && this.email == email && this.age == age && compte == null
    {
      this.nom := nom;
      this.email := email;
      this.age := age;
      compte := null;
    }

    /** `creer_compte`: a new account with the opening balance and an empty log. */
    method CreerCompte(soldeInitial: int)
      modifies this`compte
      ensures fresh(compte) && compte.State() == AccountState(soldeInitial, [])
    {
      compte := new Compte(soldeInitial);
    }

    /** `est_majeur`: of age strictly above 18, so 18 itself is not. */
    function EstMajeur(): (r: bool)
      reads this
      ensures r <==> age >= 19
    {
      age > 18
    }
  }

  /** A transfer is refused for a negative amount or one above the source's
      balance. */
  predicate Refused(source: AccountState, m: int) {
    m < 0 || m > source.solde
  }

  /** `transfert` between two different accounts: `retirer` then `deposer`. */
  function Transferred(source: AccountState, destination: AccountState, m: int): (AccountState, AccountState) {
    if Refused(source, m) then (source, destination)
    else (Withdrawn(source, m), Deposited(destination, m))
  }

  /** A transfer between different accounts either changes neither or moves
      exactly `m` from the source to the destination, so the sum of the two
      balances is conserved, and a non-negative source stays non-negative. */
  lemma TransferFacts(source: AccountState, destination: AccountState, m: int)
    ensures var (s, d) := Transferred(source, destination, m);
      && s.solde + d.solde == source.solde + destination.solde
      && (Refused(source, m) ==> s == source && d == destination)
      && (!Refused(source, m) ==> s.solde == source.solde - m && d.solde == destination.solde + m)
      && (source.solde >= 0 ==> s.solde >= 0)
  {
  }

  /** A transfer from an account to itself leaves its balance as it was and,
      unless refused, logs the withdrawal and then the deposit. */
  lemma SelfTransferFacts(s: AccountState, m: int)
    ensures var r := if Refused(s, m) then s else Deposited(Withdrawn(s, m), m);
      && r.solde == s.solde
      && (!Refused(s, m) ==> r.historique == s.historique + [Operation("RETRAIT", m), Operation("DEPOT", m)])
  {
  }

  /** `transfert`: checks the amount, that both users have an account and
      the source's balance, then withdraws and deposits.  The users' `compte`
      fields are not changed; with a missing account nothing is. */
  method Transfert(source: Utilisateur, destination: Utilisateur, montant: int)
    modifies source.compte, destination.compte
    ensures source.compte == null || destination.compte == null ==>
              (source.compte != null ==> source.compte.State() == old(source.compte.State()))
              && (destination.compte != null ==> destination.compte.State() == old(destination.compte.State()))
    ensures source.compte != null && destination.compte != null && source.compte != destination.compte ==>
              (source.compte.State(), destination.compte.State())
                == Transferred(old(source.compte.State()), old(destination.compte.State()), montant)
    ensures source.compte != null && source.compte == destination.compte ==>
              source.compte.State()
                == if Refused(old(source.compte.State()), montant) then old(source.compte.State())
                   else Deposited(Withdrawn(old(source.compte.State()), montant), montant)
  {
    if montant < 0 {
      return;
    }
    if source.compte == null || destination.compte == null {
      return;
    }
    if montant > source.compte.solde {
      return;
    }
    source.compte.Retirer(montant);
    destination.compte.Deposer(montant);
  }

  /** The balances of the users that have an account, summed. */
  function Balances(users: seq<Utilisateur>): int
    reads users, set u | u in users :: u.compte
  {
    if users == [] then 0
    else
      var u := users[|users| - 1];
      Balances(users[..|users| - 1]) + (if u.compte != null then u.compte.solde else 0)
  }

  /** The global `UTILISATEURS` list. */
  class Registry {
    var utilisateurs: seq<Utilisateur>

    constructor ()
      ensures utilisateurs == []
    {
      utilisateurs := [];
    }

    /** `ajouter_utilisateur`: a new user without an account, appended and returned. */
    method AjouterUtilisateur(nom: string, email: string, age: int) returns (u: Utilisateur)
      modifies this`utilisateurs
      ensures fresh(u) && u.nom == nom && u.email == email && u.age == age && u.compte == null
      ensures utilisateurs == old(utilisateurs) + [u]
    {
      u := new Utilisateur(nom, email, age);
      utilisateurs := utilisateurs + [u];
    }

    /** `trouver_utilisateur`: the first user with that email, or `None`. */
    method TrouverUtilisateur(email: string) returns (u: Utilisateur?)
      ensures u == null <==> forall i | 0 <= i < |utilisateurs| :: utilisateurs[i].email != email
      ensures u != null ==> exists i | 0 <= i < |utilisateurs| ::
                utilisateurs[i] == u && u.email == email && forall j | 0 <= j < i :: utilisateurs[j].email != email
    {
      for i := 0 to |utilisateurs|
        invariant forall j | 0 <= j < i :: utilisateurs[j].email != email
      {
        if utilisateurs[i].email == email {
          return utilisateurs[i];
        }
      }
      u := null;
    }

    /** `total_soldes`: the sum of the balances of the users with an account. */
    method TotalSoldes() returns (total: int)
      ensures total == Balances(utilisateurs)
    {
      total := 0;
      for i := 0 to |utilisateurs|
        invariant total == Balances(utilisateurs[..i])
      {
        assert utilisateurs[..i + 1][..i] == utilisateurs[..i];
        var u := utilisateurs[i];
        if u.compte != null {
          total := total + u.compte.solde;
        }
      }
      assert utilisateurs[..|utilisateurs|] == utilisateurs;
    }
  }
}
