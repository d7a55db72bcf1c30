/** The API-key gate that every protected endpoint passes first. */
module Auth {
  import opened Wrappers

  /** What an API key resolves to: the `user_id` and `organisation` of its entry. */
  datatype Account = Account(userId: int, organisation: string)

  /** The two ways the gate rejects a request; both are answered with HTTP 401. */
  datatype AuthError = MissingKey | InvalidKey {

    /** The `error` field of the 401 response. */
    function Title(): string {
      match this
      case MissingKey => "API-Key fehlt"
      case InvalidKey => "Ungültiger API-Key"
    }

    /** The `message` field of the 401 response. */
    function Message(): string {
      match this
      case MissingKey => "Bitte X-API-Key im Header mitschicken"
      case InvalidKey => "API-Key nicht gefunden"
    }
  }

  /** The single seeded credential of the in-memory database. */
  const SeedKey := "test_key_12345"
  const SeedKeys: map<string, Account> := map[SeedKey := Account(1, "Stadt Zürich - Test")]

  /**
   * Resolves the value of the `X-API-Key` header (absent when the header is
   * missing). An absent or empty header is a missing key; a key that is not
   * in `keys` is invalid; otherwise the caller is the key's account.
   */
  function Authenticate(keys: map<string, Account>, header: Option<string>): (r: Result<Account, AuthError>)
    ensures r == Err(MissingKey) <==> header == None || header == Some("")
    ensures r == Err(InvalidKey) <==> header.Some? && header.value != "" && header.value !in keys
    ensures r.Ok? <==> header.Some? && header.value != "" && header.value in keys
    ensures r.Ok? ==> r.value == keys[header.value]
  {
    match header
    case None => Err(MissingKey)
    case Some(key) =>
      if key == "" then Err(MissingKey)
      else if key !in keys then Err(InvalidKey)
      else Ok(keys[key])
  }

  /** With the seeded credentials exactly one key gets through, as user 1 of the Zurich test organisation. */
  lemma SeedCredentials(key: string)
    ensures Authenticate(SeedKeys, Some(SeedKey)) == Ok(Account(1, "Stadt Zürich - Test"))
    ensures key != "" && key != SeedKey ==> Authenticate(SeedKeys, Some(key)) == Err(InvalidKey)
  {
  }
}
