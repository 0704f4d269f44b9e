/** sandbox/code3.py: tasks with a title and tags, and a task list that
    `supprimer` rebuilds without the first task of a given title. */
module Tasks {
  import opened Wrappers

  class Tache {
    var titre: string
    var tags: seq<string>

    /** A task; `tags=None` gives an empty list. */
    constructor (titre: string, tags: Option<seq<string>>)
      ensures this.titre == titre
      ensures tags.None? ==> this.tags == []
      ensures tags.Some? ==> this.tags == tags.value
    {
      this.titre := titre;
      if tags.None? {
        this.tags := [];
      } else {
        this.tags := tags.value;
      }
    }

    /** `ajouter_tag`: one tag more, at the end. */
    method AjouterTag(tag: string)
      modifies this`tags
      ensures tags == old(tags) + [tag]
    {
      tags := tags + [tag];
    }
  }

  /** `taches` without its first task titled `titre`. */
  function Without(taches: seq<Tache>, titre: string): seq<Tache>
    reads taches
  {
    if taches == [] then []
    else if taches[0].titre == titre then taches[1..]
    else [taches[0]] + Without(taches[1..], titre)
  }

  /** With no task titled `titre`, `Without` leaves the list unchanged. */
  lemma {:induction false} WithoutNoMatch(taches: seq<Tache>, titre: string)
    requires forall i | 0 <= i < |taches| :: taches[i].titre != titre
    ensures Without(taches, titre) == taches
  {
    if taches != [] {
      var rest := taches[1..];
      assert forall i | 0 <= i < |rest| :: rest[i].titre != titre by {
        forall i | 0 <= i < |rest| ensures rest[i].titre != titre {
          assert rest[i] == taches[i + 1];
        }
      }
      WithoutNoMatch(rest, titre);
      assert taches == [taches[0]] + rest;
    }
  }

  /** When the first task titled `titre` is at `i`, `Without` drops exactly
      that one and keeps the others in order. */
  lemma {:induction false} WithoutFirstMatch(taches: seq<Tache>, titre: string, i: nat)
    requires i < |taches| && taches[i].titre == titre
    requires forall j | 0 <= j < i :: taches[j].titre != titre
    ensures Without(taches, titre) == taches[..i] + taches[i + 1..]
  {
    if i > 0 {
      var rest := taches[1..];
      assert taches[0].titre != titre;
      assert rest[i - 1] == taches[i];
      forall j | 0 <= j < i - 1
        ensures rest[j].titre != titre
      {
        assert rest[j] == taches[j + 1];
      }
      WithoutFirstMatch(rest, titre, i - 1);
      assert taches[..i] == [taches[0]] + rest[..i - 1];
      assert taches[i + 1..] == rest[i..];
    }
  }

  /** `Without` removes at most one task. */
  lemma {:induction false} WithoutLength(taches: seq<Tache>, titre: string)
    ensures |taches| - 1 <= |Without(taches, titre)| <= |taches|
  {
    if taches != [] {
      WithoutLength(taches[1..], titre);
    }
  }

  class GestionTaches {
    var taches: seq<Tache>

    constructor ()
      ensures taches == []
    {
      taches := [];
    }

    /** `ajouter`: one task more, at the end. */
    method Ajouter(tache: Tache)
      modifies this`taches
      ensures taches == old(taches) + [tache]
    {
      taches := taches + [tache];
    }

    /** `supprimer`: one pass that keeps every task except the first one
        titled `titre`. */
    method Supprimer(titre: string)
      modifies this`taches
      ensures taches == Without(old(taches), titre)
    {
      var aGarder: seq<Tache> := [];
      var supprimee := false;
      ghost var at := 0;
      for k := 0 to |taches|
        invariant !supprimee ==> aGarder == taches[..k] && forall j | 0 <= j < k :: taches[j].titre != titre
        invariant supprimee ==>
          && at < k && taches[at].titre == titre && (forall j | 0 <= j < at :: taches[j].titre != titre)
          && aGarder == taches[..at] + taches[at + 1..k]
      {
        var t := taches[k];
        if t.titre == titre && !supprimee {
          supprimee := true;
          at := k;
          assert taches[k + 1..k + 1] == [];
        } else {
          if supprimee {
            assert taches[at + 1..k + 1] == taches[at + 1..k] + [t];
          } else {
            assert taches[..k + 1] == taches[..k] + [t];
          }
          aGarder := aGarder + [t];
        }
      }
      if supprimee {
        WithoutFirstMatch(taches, titre, at);
      } else {
        WithoutNoMatch(taches, titre);
        assert taches[..|taches|] == taches;
      }
      taches := aGarder;
    }
  }
}
