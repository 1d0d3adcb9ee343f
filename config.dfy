/** Runtime configuration, resolved from the process environment with defaults. */
module Configuration {

  /** The process environment; a name absent from the map is unset. */
  type Env = map<string, string>

  datatype Config = Config(port: string, adminPassword: string, firestoreCredentialsPath: string, clientId: string)

  const DefaultPort: string := "8080"
  const DefaultAdminPassword: string := "admin123"
  /** The tenant identifier, fixed at build time. */
  const ClientId: string := "114617498403471847641"

  /** os.Getenv: the value, or the empty string when unset. */
  function Getenv(env: Env, name: string): string {
    if name in env then env[name] else ""
  }

  function LoadConfig(env: Env): (c: Config)
    ensures c.port != "" && c.adminPassword != "" && c.clientId != ""
    ensures Getenv(env, "PORT") != "" ==> c.port == env["PORT"]
    ensures Getenv(env, "PORT") == "" ==> c.port == DefaultPort
    ensures Getenv(env, "ADMIN_PASSWORD") != "" ==> c.adminPassword == env["ADMIN_PASSWORD"]
    ensures Getenv(env, "ADMIN_PASSWORD") == "" ==> c.adminPassword == DefaultAdminPassword
    ensures c.firestoreCredentialsPath == Getenv(env, "FIRESTORE_CREDENTIALS_PATH")
    ensures c.clientId == ClientId
  {
    var port := Getenv(env, "PORT");
    var port := if port == "" then DefaultPort else port;
    var adminPassword := Getenv(env, "ADMIN_PASSWORD");
    var adminPassword := if adminPassword == "" then DefaultAdminPassword else adminPassword;
    var credentialsPath := Getenv(env, "FIRESTORE_CREDENTIALS_PATH");
    Config(port, adminPassword, credentialsPath, ClientId)
  }

  /** An environment that sets exactly the three variables the loader reads. */
  function EnvOf(c: Config): Env {
    map["PORT" := c.port, "ADMIN_PASSWORD" := c.adminPassword, "FIRESTORE_CREDENTIALS_PATH" := c.firestoreCredentialsPath]
  }

  /** The loader reads nothing but PORT, ADMIN_PASSWORD and FIRESTORE_CREDENTIALS_PATH. */
  lemma LoadConfigReadsOnlyItsVariables(e1: Env, e2: Env)
    requires Getenv(e1, "PORT") == Getenv(e2, "PORT")
    requires Getenv(e1, "ADMIN_PASSWORD") == Getenv(e2, "ADMIN_PASSWORD")
    requires Getenv(e1, "FIRESTORE_CREDENTIALS_PATH") == Getenv(e2, "FIRESTORE_CREDENTIALS_PATH")
    ensures LoadConfig(e1) == LoadConfig(e2)
  {
  }

  /** Writing a loaded configuration back to the environment and loading it
      again gives the same configuration. */
  lemma LoadConfigRoundTrip(env: Env)
    ensures LoadConfig(EnvOf(LoadConfig(env))) == LoadConfig(env)
  {
  }

  /** With nothing set, the port and password take their defaults and the
      credentials path stays empty (ambient credentials are used). */
  lemma LoadConfigDefaults()
    ensures LoadConfig(map[]) == Config(DefaultPort, DefaultAdminPassword, "", ClientId)
  {
  }
}
