/** The part of LoadConfig that the group assignment relies on: the role catalogue and its group mapping. */
module ConfigRoles {
  import opened Wrappers
  import Text
  import Lists
  import FanOut

  datatype ConfigError = NoRoles | MissingMapping | BadMapping | NoGroup(role: string)

  datatype Catalogue = Catalogue(allowedRoles: set<string>, groups: map<string, string>)

  /** JSON decoding is a parameter; a JSON null decodes to an empty mapping. */
  type Decoder = string -> Option<map<string, string>>

  /** What a configuration must look like to be accepted. */
  ghost predicate Accepted(allowed: string, mapping: string, decode: Decoder) {
    && Lists.Entries(allowed) != []
    && !Text.IsBlank(mapping)
    && decode(Text.TrimSpace(mapping)).Some?
    && forall role <- Lists.Entries(allowed) :: FanOut.Mapped(decode(Text.TrimSpace(mapping)).value, role)
  }

  /** The group ids as rewritten in place: trimmed for the roles of the catalogue, as decoded for all others. */
  ghost predicate Rewritten(decoded: map<string, string>, done: set<string>, groups: map<string, string>) {
    && groups.Keys == decoded.Keys
    && forall role <- groups.Keys ::
         groups[role] == if role in done then Text.TrimSpace(decoded[role]) else decoded[role]
  }

  /** What an accepted configuration leaves: the roles the variable lists, and their groups. */
  ghost predicate Loaded(allowed: string, mapping: string, decode: Decoder, c: Catalogue) {
    && Accepted(allowed, mapping, decode)
    && (forall role :: role in c.allowedRoles <==> role in Lists.Entries(allowed))
    && Rewritten(decode(Text.TrimSpace(mapping)).value, c.allowedRoles, c.groups)
  }

  /** Which error is due: the first one, in the order of the checks; any role without a group may be the one named. */
  ghost predicate Explains(error: ConfigError, allowed: string, mapping: string, decode: Decoder) {
    match error
    case NoRoles => Lists.Entries(allowed) == []
    case MissingMapping => Lists.Entries(allowed) != [] && Text.IsBlank(mapping)
    case BadMapping =>
      Lists.Entries(allowed) != [] && !Text.IsBlank(mapping) && decode(Text.TrimSpace(mapping)).None?
    case NoGroup(role) =>
      && role in Lists.Entries(allowed) && !Text.IsBlank(mapping)
      && decode(Text.TrimSpace(mapping)).Some?
      && !FanOut.Mapped(decode(Text.TrimSpace(mapping)).value, role)
  }

  /** The set that the first loop fills. */
  method AllowedRoles(allowed: string) returns (roles: set<string>)
    ensures forall role :: role in roles <==> role in Lists.Entries(allowed)
    ensures roles == {} <==> Lists.Entries(allowed) == []
  {
    hide Text.TrimSpace;
    var parts := Lists.Split(Text.TrimSpace(allowed));
    roles := {};
    for i := 0 to |parts|
      invariant forall role :: role in roles <==> role in Lists.TrimmedEntries(parts[..i])
    {
      assert parts[..i + 1][..i] == parts[..i];
      var role := Text.TrimSpace(parts[i]);
      if role != "" {
        roles := roles + {role};
      }
    }
    assert parts[..|parts|] == parts;
    if Lists.Entries(allowed) != [] {
      assert Lists.Entries(allowed)[0] in roles;
    }
  }

  /**
   The role part of LoadConfig. The loop over the catalogue visits it in no particular order; the verdict and
   the mapping it leaves do not depend on that order.
   */
  method LoadRoles(allowed: string, mapping: string, decode: Decoder) returns (result: Result<Catalogue, ConfigError>)
    ensures result.Success? <==> Accepted(allowed, mapping, decode)
    ensures result.Success? ==> Loaded(allowed, mapping, decode, result.value)
    ensures result.Failure? ==> Explains(result.error, allowed, mapping, decode)
  {
    hide Text.TrimSpace, Lists.Entries;
    var roles := AllowedRoles(allowed);
    if roles == {} {
      return Failure(NoRoles);
    }
    if Text.TrimSpace(mapping) == "" {
      return Failure(MissingMapping);
    }
    var decoded := decode(Text.TrimSpace(mapping));
    if decoded.None? {
      return Failure(BadMapping);
    }
    var groups, pending := decoded.value, roles;
    while pending != {}
      invariant pending <= roles
      invariant Rewritten(decoded.value, roles - pending, groups)
      invariant forall role <- roles - pending :: FanOut.Mapped(decoded.value, role)
      decreases pending
    {
      var role :| role in pending;
      var group := Text.TrimSpace(if role in groups then groups[role] else "");
      if group == "" {
        EmptyIsBlank();
        assert !FanOut.Mapped(decoded.value, role);
        return Failure(NoGroup(role));
      }
      EmptyIsBlank();
      groups, pending := groups[role := group], pending - {role};
    }
    assert roles - pending == roles;
    return Success(Catalogue(roles, groups));
  }

  lemma EmptyIsBlank()
    ensures Text.TrimSpace("") == ""
  {
  }

  /** It has a trimmed, non-empty group for every role of its catalogue. */
  lemma CatalogueIsMapped(allowed: string, mapping: string, decode: Decoder, c: Catalogue)
    requires Loaded(allowed, mapping, decode, c)
    ensures forall role <- c.allowedRoles ::
              FanOut.Mapped(c.groups, role) && Text.TrimSpace(c.groups[role]) == c.groups[role]
  {
    hide Text.TrimSpace, Lists.Entries;
    var decoded := decode(Text.TrimSpace(mapping)).value;
    forall role | role in c.allowedRoles
      ensures FanOut.Mapped(c.groups, role) && Text.TrimSpace(c.groups[role]) == c.groups[role]
    {
      assert FanOut.Mapped(decoded, role);
      Text.TrimSpaceIdempotent(decoded[role]);
    }
  }

  /** Two accepted runs of the loop leave the same catalogue and mapping, whatever the order of their visits. */
  lemma LoadedIsUnique(allowed: string, mapping: string, decode: Decoder, c: Catalogue, d: Catalogue)
    requires Loaded(allowed, mapping, decode, c) && Loaded(allowed, mapping, decode, d)
    ensures c == d
  {
    hide Text.TrimSpace, Lists.Entries;
    assert c.allowedRoles == d.allowedRoles;
    assert c.groups == d.groups;
  }
}
