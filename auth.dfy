/** The access gate in front of every write (`get_current_username`): the
    configured username and password are parameters instead of environment
    reads, and the supplied pair is what HTTP Basic authentication decoded. */
module Auth {
  import opened Wrappers
  import opened Http
  import opened Text

  datatype Credentials = Credentials(username: string, password: string)

  const MissingConfiguration := HttpError(
    500,
    "Internal server error: BASIC_AUTH_USERNAME and BASIC_AUTH_PASSWORD environment variables not set.",
    [])

  /** The one rejection for a wrong pair, whichever half was wrong. */
  const WrongCredentials := HttpError(401, "Incorrect email or password", [("WWW-Authenticate", "Basic")])

  /** `secrets.compare_digest(a, b)` on two `str` values: `None` stands for
      the `TypeError` it raises when either string holds a non-ASCII
      character. Its constant running time is not modelled. */
  function CompareDigest(a: string, b: string): (r: Option<bool>)
    ensures r.Some? <==> IsAscii(a) && IsAscii(b)
    ensures r.Some? ==> (r.value <==> a == b)
  {
    if IsAscii(a) && IsAscii(b) then Some(a == b) else None
  }

  /** The gate's decision. Missing configuration is answered first, with
      500, whatever was supplied; both comparisons are made before the
      decision; a wrong pair is always the same 401; success returns the
      supplied username. */
  function GetCurrentUsername(configUser: Option<string>, configPassword: Option<string>, creds: Credentials)
    : (r: Result<string, HttpError>)
    requires IsAscii(creds.username) && IsAscii(creds.password)
    ensures !(Truthy(configUser) && Truthy(configPassword)) ==> r == Err(MissingConfiguration)
    ensures r.Ok? <==>
      && Truthy(configUser) && Truthy(configPassword)
      && creds.username == configUser.value && creds.password == configPassword.value
    ensures r.Ok? ==> r.value == creds.username
    ensures Truthy(configUser) && Truthy(configPassword) && IsAscii(configUser.value) && IsAscii(configPassword.value)
            && !(creds.username == configUser.value && creds.password == configPassword.value)
            ==> r == Err(WrongCredentials)
    ensures r.Err? && r.error.status == 500 ==> !(Truthy(configUser) && Truthy(configPassword))
                                                || !IsAscii(configUser.value) || !IsAscii(configPassword.value)
  {
    if !(Truthy(configUser) && Truthy(configPassword)) then Err(MissingConfiguration)
    else
      var correctUsername := CompareDigest(creds.username, configUser.value);
      var correctPassword := CompareDigest(creds.password, configPassword.value);
      if correctUsername.None? || correctPassword.None? then Err(InternalServerError)
      else if !(correctUsername.value && correctPassword.value) then Err(WrongCredentials)
      else Ok(creds.username)
  }

  /** A caller learns nothing about which half of a wrong pair was wrong:
      a wrong username and a wrong password get identical answers. */
  lemma NoHintWhichHalfFailed(configUser: string, configPassword: string, user: string, password: string)
    requires configUser != "" && configPassword != "" && IsAscii(configUser) && IsAscii(configPassword)
    requires IsAscii(user) && IsAscii(password)
    requires user != configUser && password != configPassword
    ensures GetCurrentUsername(Some(configUser), Some(configPassword), Credentials(user, configPassword))
         == GetCurrentUsername(Some(configUser), Some(configPassword), Credentials(configUser, password))
         == GetCurrentUsername(Some(configUser), Some(configPassword), Credentials(user, password))
         == Err(WrongCredentials)
  {
  }
}
