/** The body of a submission: its normalisation and its validation against the role catalogue. */
module SubmitInputs {
  import opened Wrappers
  import Text

  datatype SubmitInput = SubmitInput(
    organization: string,
    email: string,
    firstName: string,
    lastName: string,
    roles: seq<string>)

  datatype NameField = FirstName | LastName

  datatype InputError =
    | BadOrganization | BadEmail | BadName(field: NameField) | NoRoles
    | UnknownRole(role: string) | DuplicateRole(dup: string)

  /** The address inside a mail header text, if it parses: the mail library is a parameter of the model. */
  type AddressParser = string -> Option<string>

  function Trimmed(values: seq<string>): seq<string> {
    seq(|values|, i requires 0 <= i < |values| => Text.TrimSpace(values[i]))
  }

  function Normalized(input: SubmitInput): SubmitInput {
    SubmitInput(
      Text.TrimSpace(input.organization), Text.TrimSpace(input.email),
      Text.TrimSpace(input.firstName), Text.TrimSpace(input.lastName), Trimmed(input.roles))
  }

  predicate GoodName(name: string) {
    !Text.IsBlank(name) && Text.ByteLen(Text.TrimSpace(name)) <= 255
  }

  predicate Distinct(values: seq<string>) {
    forall i, j :: 0 <= i < j < |values| ==> values[i] != values[j]
  }

  predicate GoodOrganization(input: SubmitInput, organization: string) {
    input.organization == organization && !Text.IsBlank(organization)
  }

  predicate GoodAddress(input: SubmitInput, parse: AddressParser) {
    parse(Text.TrimSpace(input.email)) == Some(input.email) && Text.ByteLen(input.email) <= 320
  }

  /** The submissions that pass validation. */
  predicate Acceptable(input: SubmitInput, organization: string, allowedRoles: set<string>, parse: AddressParser) {
    && GoodOrganization(input, organization)
    && GoodAddress(input, parse)
    && GoodName(input.firstName) && GoodName(input.lastName)
    && input.roles != []
    && (forall role <- Trimmed(input.roles) :: role in allowedRoles)
    && Distinct(Trimmed(input.roles))
  }

  /** The roles before position `i` are distinct catalogue roles, and the one at `i` is not one more of them. */
  predicate FirstBadRole(roles: seq<string>, allowedRoles: set<string>, i: nat) {
    && i < |roles|
    && (forall k :: 0 <= k < i ==> roles[k] in allowedRoles)
    && (forall j, k :: 0 <= j < k < i ==> roles[j] != roles[k])
    && (roles[i] !in allowedRoles || exists k :: 0 <= k < i && roles[k] == roles[i])
  }

  /** The fields before the roles are good. */
  predicate GoodFields(input: SubmitInput, organization: string, parse: AddressParser) {
    && GoodOrganization(input, organization) && GoodAddress(input, parse)
    && GoodName(input.firstName) && GoodName(input.lastName)
  }

  /** Which problem is reported: the first one, in the order of the checks. */
  ghost predicate FirstProblem(problem: InputError, input: SubmitInput, organization: string,
                               allowedRoles: set<string>, parse: AddressParser)
  {
    match problem
    case BadOrganization => !GoodOrganization(input, organization)
    case BadEmail => GoodOrganization(input, organization) && !GoodAddress(input, parse)
    case BadName(field) =>
      && GoodOrganization(input, organization) && GoodAddress(input, parse)
      && if field == FirstName then !GoodName(input.firstName)
         else GoodName(input.firstName) && !GoodName(input.lastName)
    case NoRoles => GoodFields(input, organization, parse) && input.roles == []
    case UnknownRole(role) =>
      && GoodFields(input, organization, parse) && role !in allowedRoles
      && exists i: nat :: FirstBadRole(Trimmed(input.roles), allowedRoles, i) && Trimmed(input.roles)[i] == role
    case DuplicateRole(role) =>
      && GoodFields(input, organization, parse) && role in allowedRoles
      && exists i: nat :: FirstBadRole(Trimmed(input.roles), allowedRoles, i) && Trimmed(input.roles)[i] == role
  }

  /** SubmitInput.Normalize fills the slice of roles position by position. */
  method Normalize(input: SubmitInput) returns (normalized: SubmitInput)
    ensures normalized == Normalized(input)
  {
    var roles := new string[|input.roles|];
    for i := 0 to |input.roles|
      invariant roles[..i] == Trimmed(input.roles)[..i]
    {
      roles[i] := Text.TrimSpace(input.roles[i]);
    }
    assert roles[..] == roles[..|input.roles|] == Trimmed(input.roles);
    return SubmitInput(
        Text.TrimSpace(input.organization), Text.TrimSpace(input.email),
        Text.TrimSpace(input.firstName), Text.TrimSpace(input.lastName), roles[..]);
  }

  /** SubmitInput.Validate: None if the submission is accepted, the first problem otherwise. */
  method Validate(input: SubmitInput, organization: string, allowedRoles: set<string>, parse: AddressParser)
    returns (problem: Option<InputError>)
    ensures problem == None <==> Acceptable(input, organization, allowedRoles, parse)
    ensures problem.Some? ==> FirstProblem(problem.value, input, organization, allowedRoles, parse)
  {
    hide Text.TrimSpace, Text.ByteLen;
    if Text.IsBlank(input.organization) || input.organization != organization {
      return Some(BadOrganization);
    }
    var address := parse(Text.TrimSpace(input.email));
    if address != Some(input.email) || Text.ByteLen(input.email) > 320 {
      return Some(BadEmail);
    }
    var names := [(FirstName, input.firstName), (LastName, input.lastName)];
    for i := 0 to |names|
      invariant forall k :: 0 <= k < i ==> GoodName(names[k].1)
    {
      if !GoodName(names[i].1) {
        assert i == 1 ==> GoodName(names[0].1);
        return Some(BadName(names[i].0));
      }
    }
    assert GoodName(names[0].1) && GoodName(names[1].1);
    if |input.roles| == 0 {
      return Some(NoRoles);
    }
    var seen: set<string> := {};
    ghost var trimmed := Trimmed(input.roles);
    for i := 0 to |input.roles|
      invariant forall role :: role in seen <==> role in trimmed[..i]
      invariant forall k :: 0 <= k < i ==> trimmed[k] in allowedRoles
      invariant forall j, k :: 0 <= j < k < i ==> trimmed[j] != trimmed[k]
    {
      var role := Text.TrimSpace(input.roles[i]);
      assert role == trimmed[i] && role in trimmed;
      if role !in allowedRoles {
        assert FirstBadRole(trimmed, allowedRoles, i);
        return Some(UnknownRole(role));
      }
      if role in seen {
        assert FirstBadRole(trimmed, allowedRoles, i);
        return Some(DuplicateRole(role));
      }
      seen := seen + {role};
    }
    return None;
  }

  /** There is one first problem, so validation leaves no choice. */
  lemma FirstProblemIsUnique(a: InputError, b: InputError, input: SubmitInput, organization: string,
                             allowedRoles: set<string>, parse: AddressParser)
    requires FirstProblem(a, input, organization, allowedRoles, parse)
    requires FirstProblem(b, input, organization, allowedRoles, parse)
    ensures a == b
  {
    hide Text.TrimSpace, Text.ByteLen, GoodOrganization, GoodAddress, GoodName, Trimmed;
    var roles := Trimmed(input.roles);
    NoRolesTrimmed(input.roles);
    if BadRole(a) && BadRole(b) {
      var i: nat :| FirstBadRole(roles, allowedRoles, i) && roles[i] == Named(a);
      var j: nat :| FirstBadRole(roles, allowedRoles, j) && roles[j] == Named(b);
      OneBadRole(roles, allowedRoles, i, j);
      OneBadRole(roles, allowedRoles, j, i);
    }
  }

  predicate BadRole(problem: InputError) {
    problem.UnknownRole? || problem.DuplicateRole?
  }

  function Named(problem: InputError): string
    requires BadRole(problem)
  {
    match problem
    case UnknownRole(role) => role
    case DuplicateRole(role) => role
  }

  lemma NoRolesTrimmed(roles: seq<string>)
    ensures |Trimmed(roles)| == |roles|
  {
  }

  lemma OneBadRole(roles: seq<string>, allowedRoles: set<string>, i: nat, j: nat)
    requires FirstBadRole(roles, allowedRoles, i) && FirstBadRole(roles, allowedRoles, j)
    ensures i >= j
  {
  }

  lemma TrimmedIdempotent(values: seq<string>)
    ensures Trimmed(Trimmed(values)) == Trimmed(values)
  {
    hide Text.TrimSpace;
    forall i | 0 <= i < |values|
      ensures Trimmed(Trimmed(values))[i] == Trimmed(values)[i]
    {
      Text.TrimSpaceIdempotent(values[i]);
    }
  }

  /** What validation promises about a normalised submission: the roles as stored are distinct catalogue roles. */
  lemma NormalizedRoles(input: SubmitInput, organization: string, allowedRoles: set<string>, parse: AddressParser)
    requires Acceptable(Normalized(input), organization, allowedRoles, parse)
    ensures Normalized(input).organization == organization
    ensures forall role <- Normalized(input).roles :: role in allowedRoles
    ensures Distinct(Normalized(input).roles)
    ensures Normalized(Normalized(input)) == Normalized(input)
  {
    hide Text.TrimSpace, Text.ByteLen;
    TrimmedIdempotent(input.roles);
    Text.TrimSpaceIdempotent(input.organization);
    Text.TrimSpaceIdempotent(input.email);
    Text.TrimSpaceIdempotent(input.firstName);
    Text.TrimSpaceIdempotent(input.lastName);
  }
}
