/** Account registration: the username rules, the order of the refusals,
    and the creation of a player with a home planet, every building and
    every technology at level 0. */
module Registration {
  import opened GameTypes
  import opened Lifecycle

  const MIN_USERNAME_LENGTH: int := 3
  const MAX_USERNAME_LENGTH: int := 20
  const MIN_COORDINATE: int := 1
  const MAX_COORDINATE: int := 499
  const HOME_PLANET_NAME: string := "Homeworld"

  /** One character of the class [a-zA-Z0-9_]. */
  predicate IsWordChar(c: char)
  {
    ('a' <= c <= 'z') || ('A' <= c <= 'Z') || ('0' <= c <= '9') || c == '_'
  }

  /** The pattern ^[a-zA-Z0-9_]+$, matched one character at a time from the
      front: a character of the class, then either the end or a further match. */
  predicate MatchesUsernamePattern(s: string)
  {
    |s| > 0 && IsWordChar(s[0]) && (|s| == 1 || MatchesUsernamePattern(s[1..]))
  }

  /** The pattern accepts exactly the non-empty strings of word characters. */
  lemma {:induction false} PatternMeaning(s: string)
    ensures MatchesUsernamePattern(s) <==> |s| > 0 && forall i :: 0 <= i < |s| ==> IsWordChar(s[i])
  {
    if |s| > 1 {
      PatternMeaning(s[1..]);
      assert forall i :: 1 <= i < |s| ==> s[i] == s[1..][i - 1];
    }
  }

  /** Why a username is refused, in the order the checks run. */
  datatype UsernameProblem = BadLength | BadCharacters

  /** The two username checks: the length first, then the character class. */
  function UsernameProblemOf(username: string): Option<UsernameProblem>
  {
    if |username| < MIN_USERNAME_LENGTH || |username| > MAX_USERNAME_LENGTH then Some(BadLength)
    else if !MatchesUsernamePattern(username) then Some(BadCharacters)
    else None
  }

  /** A username passes exactly when it has 3 to 20 characters, all letters,
      digits or underscores; a wrong length is reported even when the
      characters are also wrong. */
  lemma UsernameRules(username: string)
    ensures UsernameProblemOf(username).None? <==>
              3 <= |username| <= 20 && forall i :: 0 <= i < |username| ==> IsWordChar(username[i])
    ensures UsernameProblemOf(username) == Some(BadLength) <==> |username| < 3 || |username| > 20
    ensures UsernameProblemOf(username) == Some(BadCharacters) <==>
              3 <= |username| <= 20 && exists i :: 0 <= i < |username| && !IsWordChar(username[i])
  {
    PatternMeaning(username);
  }

  /** The reasons a registration is refused. */
  datatype RegisterError = MissingField | InvalidUsername(problem: UsernameProblem) | UsernameTaken | PlayerExists

  datatype RegisterOutcome = Registered | Refused(status: nat, error: RegisterError)

  /** A new account lists every building type and every technology, each
      at level 0. */
  lemma NewAccountStartsAtZero()
    ensures forall b: BuildingType :: b in ZeroLevels(AllBuildingTypes) && ZeroLevels(AllBuildingTypes)[b] == 0
    ensures forall t: TechType :: t in ZeroLevels(AllTechTypes) && ZeroLevels(AllTechTypes)[t] == 0
  {
    forall b: BuildingType
      ensures b in AllBuildingTypes
    {
      match b
      case METAL_MINE => assert AllBuildingTypes[0] == b;
      case CRYSTAL_MINE => assert AllBuildingTypes[1] == b;
      case DEUTERIUM_SYNTHESIZER => assert AllBuildingTypes[2] == b;
      case SOLAR_PLANT => assert AllBuildingTypes[3] == b;
      case METAL_STORAGE => assert AllBuildingTypes[4] == b;
      case CRYSTAL_STORAGE => assert AllBuildingTypes[5] == b;
      case DEUTERIUM_TANK => assert AllBuildingTypes[6] == b;
      case RESEARCH_LAB => assert AllBuildingTypes[7] == b;
      case SHIPYARD => assert AllBuildingTypes[8] == b;
      case ROBOT_FACTORY => assert AllBuildingTypes[9] == b;
      case NANITE_FACTORY => assert AllBuildingTypes[10] == b;
    }
    forall t: TechType
      ensures t in AllTechTypes
    {
      match t
      case ENERGY => assert AllTechTypes[0] == t;
      case COMPUTER => assert AllTechTypes[1] == t;
      case WEAPONS => assert AllTechTypes[2] == t;
      case SHIELDING => assert AllTechTypes[3] == t;
      case ARMOR => assert AllTechTypes[4] == t;
      case COMBUSTION_DRIVE => assert AllTechTypes[5] == t;
      case IMPULSE_DRIVE => assert AllTechTypes[6] == t;
      case HYPERSPACE_DRIVE => assert AllTechTypes[7] == t;
      case ESPIONAGE => assert AllTechTypes[8] == t;
    }
  }

  /** The registry of accounts: each user id with the username of its player. */
  predicate UsernameInUse(accounts: map<string, string>, username: string)
  {
    exists id :: id in accounts && accounts[id] == username
  }

  /** The decision of the route, checks in order: both fields present, the
      username rules, the username free, then no player yet for the user id.
      A missing field arrives as the empty string. */
  function RegisterVerdict(accounts: map<string, string>, userId: string, username: string): RegisterOutcome
  {
    if userId == "" || username == "" then Refused(400, MissingField)
    else if UsernameProblemOf(username).Some? then Refused(400, InvalidUsername(UsernameProblemOf(username).value))
    else if UsernameInUse(accounts, username) then Refused(409, UsernameTaken)
    else if userId in accounts then Refused(409, PlayerExists)
    else Registered
  }

  /** What the verdict means: a registration is accepted exactly when both
      fields are present, the username follows the rules and neither the
      username nor the user id is in use; malformed input is a 400, a
      conflict a 409, and a taken username is reported before an existing
      player. */
  lemma RegisterVerdictMeaning(accounts: map<string, string>, userId: string, username: string)
    ensures RegisterVerdict(accounts, userId, username).Registered? <==>
              userId != "" && 3 <= |username| <= 20
              && (forall i :: 0 <= i < |username| ==> IsWordChar(username[i]))
              && !UsernameInUse(accounts, username) && userId !in accounts
    ensures var v := RegisterVerdict(accounts, userId, username);
            v.Refused? ==> (v.status == 409 <==> v.error == UsernameTaken || v.error == PlayerExists)
    ensures var v := RegisterVerdict(accounts, userId, username);
            v.Refused? ==> (v.status == 400 <==> v.error.MissingField? || v.error.InvalidUsername?)
    ensures var v := RegisterVerdict(accounts, userId, username);
            v == Refused(409, PlayerExists) ==> !UsernameInUse(accounts, username)
    ensures userId != "" && UsernameProblemOf(username).None? && UsernameInUse(accounts, username) ==>
              RegisterVerdict(accounts, userId, username) == Refused(409, UsernameTaken)
  {
    UsernameRules(username);
  }

  /** A coordinate drawn from a random number in [0, 1): floor(r·499) + 1,
      always from 1 to 499. */
  function CoordinateFrom(r: real): (c: int)
    requires 0.0 <= r < 1.0
    ensures MIN_COORDINATE <= c <= MAX_COORDINATE
  {
    (r * 499.0).Floor + 1
  }

  /** Every account's username belongs to that account alone. */
  predicate UsernamesUnique(accounts: map<string, string>)
  {
    forall a, b :: a in accounts && b in accounts && accounts[a] == accounts[b] ==> a == b
  }

  /** Adding an accepted registration keeps usernames unique. */
  lemma RegistrationKeepsUsernamesUnique(accounts: map<string, string>, userId: string, username: string)
    requires UsernamesUnique(accounts)
    requires RegisterVerdict(accounts, userId, username).Registered?
    ensures UsernamesUnique(accounts[userId := username])
  {
  }

  /** After an accepted registration, the same username is refused to any
      user id as taken, and the same user id is refused any other free,
      well-formed username as already having a player. */
  lemma SecondRegistrationRefused(accounts: map<string, string>, userId: string, username: string,
                                  otherId: string, otherName: string)
    requires RegisterVerdict(accounts, userId, username).Registered?
    ensures otherId != "" ==>
              RegisterVerdict(accounts[userId := username], otherId, username) == Refused(409, UsernameTaken)
    ensures UsernameProblemOf(otherName).None? && otherName != username && !UsernameInUse(accounts, otherName) ==>
              RegisterVerdict(accounts[userId := username], userId, otherName) == Refused(409, PlayerExists)
  {
    var next := accounts[userId := username];
    assert next[userId] == username;
    if UsernameProblemOf(otherName).None? && otherName != username && !UsernameInUse(accounts, otherName) {
      assert !UsernameInUse(next, otherName);
    }
  }

  class Registry {
    var accounts: map<string, string>

    ghost predicate Valid()
      reads this
    {
      UsernamesUnique(accounts)
    }

    constructor()
      ensures accounts == map[] && Valid()
    {
      accounts := map[];
    }

    /** Register `username` for `userId`. `rx` and `ry` are the two random
      numbers in [0, 1) the coordinates are drawn from, `defaults` the
      planet fields the schema fills in, and `now` the creation time. */
    method Register(userId: string, username: string, rx: real, ry: real, defaults: PlanetDefaults, now: int)
      returns (outcome: RegisterOutcome, player: Option<Player>)
      requires 0.0 <= rx < 1.0 && 0.0 <= ry < 1.0
      requires Valid()
      modifies this
      ensures Valid()
      ensures outcome == RegisterVerdict(old(accounts), userId, username)
      ensures outcome.Refused? ==> accounts == old(accounts) && player.None?
      ensures outcome.Registered? ==>
                && accounts == old(accounts)[userId := username]
                && player.Some? && fresh(player.value) && fresh(player.value.planet)
                && player.value.userId == userId && player.value.username == username
                && player.value.View() == PlayerView(ZeroLevels(AllTechTypes), None)
                && player.value.planet.name == HOME_PLANET_NAME
                && player.value.planet.coordX == CoordinateFrom(rx)
                && player.value.planet.coordY == CoordinateFrom(ry)
                && player.value.planet.View() == InitialView(defaults, now)
                && player.value.planet.View().amounts == Resources(500.0, 500.0, 0.0)
    {
      if userId == "" || username == "" {
        return Refused(400, MissingField), None;
      }
      if |username| < MIN_USERNAME_LENGTH || |username| > MAX_USERNAME_LENGTH {
        return Refused(400, InvalidUsername(BadLength)), None;
      }
      if !MatchesUsernamePattern(username) {
        return Refused(400, InvalidUsername(BadCharacters)), None;
      }
      if UsernameInUse(accounts, username) {
        return Refused(409, UsernameTaken), None;
      }
      if userId in accounts {
        return Refused(409, PlayerExists), None;
      }
      var coordX := CoordinateFrom(rx);
      var coordY := CoordinateFrom(ry);
      RegistrationKeepsUsernamesUnique(accounts, userId, username);
      var planet := new Planet(HOME_PLANET_NAME, coordX, coordY, defaults, now);
      var newPlayer := new Player(userId, username, planet);
      accounts := accounts[userId := username];
      return Registered, Some(newPlayer);
    }
  }
}
