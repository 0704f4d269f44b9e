/** sandbox/code1.py: customer orders.  A `Commande` holds a client name and
    a list of `(nom, prix, quantite)` products that `ajouter_produit` appends
    to; prices and quantities are integers. */
module Orders {
  import opened Wrappers

  datatype Produit = Produit(nom: string, prix: int, quantite: int)

  /** The value of a list of products: the sum of `prix * quantite`. */
  function Amount(ps: seq<Produit>): int {
    if ps == [] then 0
    else Amount(ps[..|ps| - 1]) + ps[|ps| - 1].prix * ps[|ps| - 1].quantite
  }

  /** The value of a concatenation is the sum of the values. */
  lemma {:induction false} AmountConcat(a: seq<Produit>, b: seq<Produit>)
    ensures Amount(a + b) == Amount(a) + Amount(b)
    decreases |b|
  {
    if b != [] {
      var b' := b[..|b| - 1];
      assert (a + b)[..|a + b| - 1] == a + b';
      assert (a + b)[|a + b| - 1] == b[|b| - 1];
      AmountConcat(a, b');
    } else {
      assert a + b == a;
    }
  }

  /** Adding one product raises the value by its `prix * quantite`. */
  lemma AmountAppend(ps: seq<Produit>, p: Produit)
    ensures Amount(ps + [p]) == Amount(ps) + p.prix * p.quantite
  {
    assert (ps + [p])[..|ps|] == ps;
  }

  class Commande {
    var client: string
    var produits: seq<Produit>

    constructor (client: string, produits: seq<Produit>)
      ensures this.client == client && this.produits == produits
    {
      this.client := client;
      this.produits := produits;
    }

    /** `total`: the value of the order. */
    method Total() returns (totalPrix: int)
      ensures totalPrix == Amount(produits)
    {
      totalPrix := 0;
      for i := 0 to |produits|
        invariant totalPrix == Amount(produits[..i])
      {
        assert produits[..i + 1][..i] == produits[..i];
        totalPrix := totalPrix + produits[i].prix * produits[i].quantite;
      }
      assert produits[..|produits|] == produits;
    }

    /** `ajouter_produit`: a negative quantity raises `ValueError` and leaves
        the products as they were; otherwise the product goes at the end. */
    method AjouterProduit(nom: string, prix: int, quantite: int) returns (o: Outcome)
      modifies this`produits
      ensures quantite < 0 ==> o == Fail(ValueError) && produits == old(produits)
      ensures quantite >= 0 ==> o == Pass && produits == old(produits) + [Produit(nom, prix, quantite)]
    {
      if quantite < 0 {
        return Fail(ValueError);
      }
      produits := produits + [Produit(nom, prix, quantite)];
      o := Pass;
    }
  }

  /** The value of a list of orders: the sum of their values. */
  function OrdersAmount(commandes: seq<Commande>): int
    reads commandes
  {
    if commandes == [] then 0
    else OrdersAmount(commandes[..|commandes| - 1]) + Amount(commandes[|commandes| - 1].produits)
  }

  /** `total_commandes`: the sum of the order totals. */
  method TotalCommandes(commandes: seq<Commande>) returns (totalGlobal: int)
    ensures totalGlobal == OrdersAmount(commandes)
  {
    totalGlobal := 0;
    for i := 0 to |commandes|
      invariant totalGlobal == OrdersAmount(commandes[..i])
    {
      assert commandes[..i + 1][..i] == commandes[..i];
      var t := commandes[i].Total();
      totalGlobal := totalGlobal + t;
    }
    assert commandes[..|commandes|] == commandes;
  }

  /** `ajouter_produit_globale`: the same check and append as
      `Commande.ajouter_produit`, on `commande.produits`. */
  method AjouterProduitGlobale(commande: Commande, nom: string, prix: int, quantite: int) returns (o: Outcome)
    modifies commande`produits
    ensures quantite < 0 ==> o == Fail(ValueError) && commande.produits == old(commande.produits)
    ensures quantite >= 0 ==> o == Pass && commande.produits == old(commande.produits) + [Produit(nom, prix, quantite)]
  {
    if quantite < 0 {
      return Fail(ValueError);
    }
    commande.produits := commande.produits + [Produit(nom, prix, quantite)];
    o := Pass;
  }
}
