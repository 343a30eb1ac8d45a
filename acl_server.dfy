/** The rights matrix of the remote ACL server: the flat list of
    `{controller, action}` records the server answers with, and the
    `controller -> [actions]` table they are folded into. */
module AclServer {

  /** One record of the server's rights answer. */
  datatype Grant = Grant(controller: string, action: string)

  /** The table built by appending each record's action to its controller's
      list, in server order, creating the list on first sight. */
  function Fold(grants: seq<Grant>): map<string, seq<string>>
    decreases |grants|
  {
    if grants == [] then map[]
    else
      var g := grants[|grants| - 1];
      var table := Fold(grants[..|grants| - 1]);
      table[g.controller := (if g.controller in table then table[g.controller] else []) + [g.action]]
  }

  /** The actions the server listed for controller `c`, in order, duplicates kept. */
  function ActionsFor(grants: seq<Grant>, c: string): seq<string>
    decreases |grants|
  {
    if grants == [] then []
    else
      var g := grants[|grants| - 1];
      ActionsFor(grants[..|grants| - 1], c) + (if g.controller == c then [g.action] else [])
  }

  /** Folding one more record appends its action to its controller's list. */
  lemma FoldStep(grants: seq<Grant>, i: nat)
    requires i < |grants|
    ensures var g := grants[i];
      var table := Fold(grants[..i]);
      Fold(grants[..i + 1]) == table[g.controller := (if g.controller in table then table[g.controller] else []) + [g.action]]
  {
    assert grants[..i + 1][..i] == grants[..i];
  }

  /** Whether a rights table lets `action` of `controller` through. */
  predicate Granted(table: map<string, seq<string>>, controller: string, action: string) {
    controller in table && action in table[controller]
  }

  /** The fold has an entry for exactly the controllers the server mentions,
      and each entry is exactly that controller's actions in server order. */
  lemma {:induction false} FoldCollects(grants: seq<Grant>, c: string)
    ensures c in Fold(grants) <==> exists i :: 0 <= i < |grants| && grants[i].controller == c
    ensures c in Fold(grants) ==> Fold(grants)[c] == ActionsFor(grants, c)
    decreases |grants|
  {
    if grants != [] {
      var n := |grants| - 1;
      var front := grants[..n];
      FoldCollects(front, c);
      if c !in Fold(front) {
        assert ActionsFor(front, c) == [] by { ActionsForAbsent(front, c); }
      }
      if exists i :: 0 <= i < |grants| && grants[i].controller == c {
        var i :| 0 <= i < |grants| && grants[i].controller == c;
        if i < n {
          assert front[i].controller == c;
        }
      }
      if c in Fold(grants) && grants[n].controller != c {
        var i :| 0 <= i < |front| && front[i].controller == c;
        assert grants[i].controller == c;
      }
    }
  }

  /** A controller the server never mentions has no actions. */
  lemma {:induction false} ActionsForAbsent(grants: seq<Grant>, c: string)
    requires forall i :: 0 <= i < |grants| ==> grants[i].controller != c
    ensures ActionsFor(grants, c) == []
    decreases |grants|
  {
    if grants != [] {
      ActionsForAbsent(grants[..|grants| - 1], c);
    }
  }

  /** An action is listed for a controller exactly when the server sent that pair. */
  lemma {:induction false} ActionsForListed(grants: seq<Grant>, c: string, a: string)
    ensures a in ActionsFor(grants, c) <==> Grant(c, a) in grants
    decreases |grants|
  {
    if grants != [] {
      var n := |grants| - 1;
      ActionsForListed(grants[..n], c, a);
      assert grants == grants[..n] + [grants[n]];
    }
  }

  /** The folded table grants a pair exactly when the server listed it. */
  lemma {:induction false} FoldGranted(grants: seq<Grant>, c: string, a: string)
    ensures Granted(Fold(grants), c, a) <==> Grant(c, a) in grants
  {
    FoldCollects(grants, c);
    ActionsForListed(grants, c, a);
    if Grant(c, a) in grants {
      var i :| 0 <= i < |grants| && grants[i] == Grant(c, a);
      assert grants[i].controller == c;
    }
  }
}
