/** The roles of a caller: collected from the claims of a token, or asserted by the trusted proxy. */
module Roles {
  import opened Wrappers
  import Text
  import opened References
  import Lists

  predicate RoleName(role: string) {
    CanonicalReference(role, 128)
  }

  // ----- The specification: a stable first-occurrence dedupe -----

  /** `i` is the first position of `x`. */
  predicate FirstAt(candidates: seq<string>, i: nat, x: string) {
    i < |candidates| && candidates[i] == x && forall k :: 0 <= k < i ==> candidates[k] != x
  }

  /** In the order in which the candidates first name them. */
  ghost predicate FirstBefore(candidates: seq<string>, x: string, y: string) {
    exists i: nat, j: nat :: i < j && FirstAt(candidates, i, x) && FirstAt(candidates, j, y)
  }

  /** The valid candidates, each once, in the order of their first occurrence. */
  ghost predicate Deduped(candidates: seq<string>, roles: seq<string>) {
    && (forall x :: x in roles <==> x in candidates && RoleName(x))
    && (forall i, j :: 0 <= i < j < |roles| ==> FirstBefore(candidates, roles[i], roles[j]))
  }

  lemma NeverBoth(candidates: seq<string>, x: string, y: string)
    ensures !(FirstBefore(candidates, x, y) && FirstBefore(candidates, y, x))
  {
  }

  /** The specification leaves no choice: there is one such list. */
  lemma DedupedIsUnique(candidates: seq<string>, a: seq<string>, b: seq<string>)
    requires Deduped(candidates, a) && Deduped(candidates, b)
    ensures a == b
  {
    AgreeUpTo(candidates, a, b, |a|);
    AgreeUpTo(candidates, b, a, |b|);
  }

  lemma {:induction false} AgreeUpTo(candidates: seq<string>, a: seq<string>, b: seq<string>, n: nat)
    requires Deduped(candidates, a) && Deduped(candidates, b) && n <= |a|
    ensures n <= |b| && forall k :: 0 <= k < n ==> a[k] == b[k]
  {
    if n > 0 {
      AgreeUpTo(candidates, a, b, n - 1);
      hide FirstBefore;
      var x := a[n - 1];
      NeverBoth(candidates, x, x);
      assert x in a && x in b;
      var k :| 0 <= k < |b| && b[k] == x;
      if k > n - 1 {
        var y := b[n - 1];
        NeverBoth(candidates, y, y);
        NeverBoth(candidates, x, y);
        assert y in b && y in a;
        var l :| 0 <= l < |a| && a[l] == y;
      }
    }
  }

  lemma DedupedExtend(candidates: seq<string>, roles: seq<string>, x: string)
    requires Deduped(candidates, roles)
    ensures Deduped(candidates + [x], if RoleName(x) && x !in roles then roles + [x] else roles)
  {
    var longer := candidates + [x];
    var result := if RoleName(x) && x !in roles then roles + [x] else roles;
    hide RoleName;
    forall i, j | 0 <= i < j < |result|
      ensures FirstBefore(longer, result[i], result[j])
    {
      if j < |roles| {
        assert FirstBefore(candidates, roles[i], roles[j]);
        var k: nat, l: nat :| k < l && FirstAt(candidates, k, roles[i]) && FirstAt(candidates, l, roles[j]);
        assert FirstAt(longer, k, roles[i]) && FirstAt(longer, l, roles[j]);
      } else {
        assert roles[i] in candidates;
        var k := FirstPosition(candidates, roles[i]);
        assert FirstAt(longer, k, roles[i]) && FirstAt(longer, |candidates|, x);
      }
    }
  }

  lemma FirstPosition(candidates: seq<string>, x: string) returns (k: nat)
    requires x in candidates
    ensures FirstAt(candidates, k, x)
  {
    k := 0;
    while candidates[k] != x
      invariant k < |candidates| && forall j :: 0 <= j < k ==> candidates[j] != x
      decreases |candidates| - k
    {
      k := k + 1;
    }
  }

  // ----- Token claims -----

  /** The candidates in the order in which they are read: realm roles, then the roles of each approved client. */
  function Candidates(realmRoles: seq<string>, clients: seq<string>, access: map<string, seq<string>>): seq<string> {
    if clients == [] then realmRoles
    else
      var last := clients[|clients| - 1];
      Candidates(realmRoles, clients[..|clients| - 1], access) + if last in access then access[last] else []
  }

  /** The inner loop: `seen` and the roles grow together. */
  method AppendValid(ghost before: seq<string>, candidates: seq<string>, seen0: set<string>, roles0: seq<string>)
    returns (seen: set<string>, roles: seq<string>)
    requires Deduped(before, roles0) && forall x :: x in seen0 <==> x in roles0
    ensures Deduped(before + candidates, roles) && forall x :: x in seen <==> x in roles
  {
    hide Deduped, CanonicalReference;
    seen, roles := seen0, roles0;
    assert before + candidates[..0] == before;
    for i := 0 to |candidates|
      invariant Deduped(before + candidates[..i], roles)
      invariant forall x :: x in seen <==> x in roles
    {
      var role := candidates[i];
      DedupedExtend(before + candidates[..i], roles, role);
      assert before + candidates[..i] + [role] == before + candidates[..i + 1];
      var valid := ValidateReference(role, 128);
      if valid && role !in seen {
        seen, roles := seen + {role}, roles + [role];
      }
    }
    assert candidates[..|candidates|] == candidates;
  }

  /** rolesFromClaims. */
  method RolesFromClaims(realmRoles: seq<string>, clients: seq<string>, access: map<string, seq<string>>)
    returns (roles: seq<string>)
    ensures Deduped(Candidates(realmRoles, clients, access), roles)
  {
    hide RoleName, FirstBefore;
    var seen: set<string>;
    assert Deduped([], []);
    seen, roles := AppendValid([], realmRoles, {}, []);
    assert [] + realmRoles == realmRoles;
    for i := 0 to |clients|
      invariant Deduped(Candidates(realmRoles, clients[..i], access), roles)
      invariant forall x :: x in seen <==> x in roles
    {
      assert clients[..i + 1][..i] == clients[..i];
      ghost var before := Candidates(realmRoles, clients[..i], access);
      assert before + [] == before;
      if clients[i] in access {
        seen, roles := AppendValid(before, access[clients[i]], seen, roles);
      }
    }
    assert clients[..|clients|] == clients;
  }

  lemma {:induction false} CandidateSources(realmRoles: seq<string>, clients: seq<string>,
      access: map<string, seq<string>>, x: string)
    ensures x in Candidates(realmRoles, clients, access)
            <==> x in realmRoles || exists client <- clients :: client in access && x in access[client]
  {
    if clients != [] {
      CandidateSources(realmRoles, clients[..|clients| - 1], access, x);
      assert clients == clients[..|clients| - 1] + [clients[|clients| - 1]];
    }
  }

  /** The realm roles come first, and then the approved clients in their order, each with its own roles. */
  lemma {:induction false} CandidatesInOrder(realmRoles: seq<string>, clients: seq<string>,
      access: map<string, seq<string>>, more: seq<string>)
    ensures Candidates(realmRoles, [], access) == realmRoles
    ensures Candidates(realmRoles, clients + more, access)
            == Candidates(realmRoles, clients, access) + Candidates([], more, access)
    decreases |more|
  {
    if more == [] {
      assert clients + more == clients;
    } else {
      assert (clients + more)[..|clients + more| - 1] == clients + more[..|more| - 1];
      CandidatesInOrder(realmRoles, clients, access, more[..|more| - 1]);
    }
  }

  lemma CandidatesOfOne(client: string, access: map<string, seq<string>>)
    ensures Candidates([], [client], access) == if client in access then access[client] else []
  {
    assert [client][..0] == [];
  }

  /** A token grants a role exactly if it is well formed and named by the realm or by an approved client. */
  lemma GrantedRoles(realmRoles: seq<string>, clients: seq<string>, access: map<string, seq<string>>,
      roles: seq<string>, x: string)
    requires Deduped(Candidates(realmRoles, clients, access), roles)
    ensures x in roles
            <==> RoleName(x) && (x in realmRoles || exists client <- clients :: client in access && x in access[client])
  {
    CandidateSources(realmRoles, clients, access, x);
  }

  // ----- The proxy header -----

  /** validatedRoles: one malformed entry refuses the whole header. */
  method ValidatedRoles(value: string) returns (roles: Option<seq<string>>)
    ensures roles.Some? <==> forall role <- Lists.Entries(value) :: RoleName(role)
    ensures roles.Some? ==> roles.value == Lists.Entries(value)
  {
    hide Text.TrimSpace;
    var parts := Lists.Split(Text.TrimSpace(value));
    var kept: seq<string> := [];
    for i := 0 to |parts|
      invariant kept == Lists.TrimmedEntries(parts[..i])
      invariant forall role <- kept :: RoleName(role)
    {
      assert parts[..i + 1][..i] == parts[..i];
      var role := Text.TrimSpace(parts[i]);
      if role != "" {
        var valid := ValidateReference(role, 128);
        if !valid {
          Lists.EntryOfPart(parts, i);
          assert role in Lists.Entries(value) && !RoleName(role);
          return None;
        }
        kept := kept + [role];
      }
    }
    assert parts[..|parts|] == parts;
    return Some(kept);
  }

  /** HasRole. */
  method HasRole(roles: seq<string>, role: string) returns (held: bool)
    ensures held <==> role in roles
  {
    for i := 0 to |roles|
      invariant role !in roles[..i]
    {
      if roles[i] == role {
        return true;
      }
    }
    return false;
  }
}
