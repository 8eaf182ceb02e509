/** The provider itself: `Configure`, which resolves the Kea credentials
    and builds the one client every resource and data source uses, and the
    fixed lists of resources and data sources. */
module Provider {
  import opened Wrappers
  import opened Kea
  import opened Framework
  import opened KeaOptions

  /** The provider's attributes. */
  datatype ProviderModel = ProviderModel(username: Attr<string>, password: Attr<string>)

  /** What `Configure` leaves in its response: the diagnostics and the
      client handed to resources and to data sources. */
  datatype Configured = Configured(diags: seq<Diagnostic>, resourceData: Option<Client>, dataSourceData: Option<Client>)

  const UsernameMissing: Diagnostic :=
    AttributeError("username", "Missing Kea DHCP API Username",
      "The provider cannot create the Kea DHCP API client as there is a missing or empty value for "
      + "the Kea DHCP API username. Set the username value in the configuration or use the KEA_USERNAME "
      + "environment variable. If either is already set, ensure the value is not empty.")

  const PasswordMissing: Diagnostic :=
    AttributeError("password", "Missing Kea DHCP API Password",
      "The provider cannot create the Kea DHCP API client as there is a missing or empty value for "
      + "the Kea DHCP API password. Set the password value in the configuration or use the KEA_PASSWORD "
      + "environment variable. If either is already set, ensure the value is not empty.")

  /** A credential: the environment variable when it is set and not empty,
      the configured value otherwise. */
  function Credential(env: map<string, string>, name: string, configured: Attr<string>): (c: string)
    ensures Getenv(env, name) != "" ==> c == Getenv(env, name)
    ensures Getenv(env, name) == "" ==> c == ValueString(configured)
  {
    if Getenv(env, name) != "" then Getenv(env, name) else ValueString(configured)
  }

  /** A credential is missing exactly when neither source gives a non-empty value. */
  lemma CredentialMissing(env: map<string, string>, name: string, configured: Attr<string>)
    ensures Credential(env, name, configured) == "" <==> Getenv(env, name) == "" && MissingString(configured)
  {
  }

  function CredentialChecks(config: ProviderModel, env: map<string, string>): seq<Check> {
    [ Check(Credential(env, EnvUser, config.username) == "", UsernameMissing),
      Check(Credential(env, EnvPass, config.password) == "", PasswordMissing) ]
  }

  /** The client `kea.New(kea.WithAuth(username, password))` builds: those
      credentials, the default remote, level and transport, no timeout. */
  function ClientFor(username: string, password: string): Client {
    Client(HttpClient(Transport(true, None), 0), InfoLevel, Auth(username, password), DefaultRemote)
  }

  /** `Configure`. `parseProxy` is `url.Parse`, which no proxy option reaches. */
  method Configure(config: ProviderModel, env: map<string, string>, parseProxy: string -> Result<string, string>)
    returns (r: Configured)
    ensures r.diags == Reported(CredentialChecks(config, env))
    ensures r.resourceData == r.dataSourceData
    ensures r.resourceData.Some? <==> r.diags == []
    ensures r.resourceData.Some? ==>
              r.resourceData.value == ClientFor(Credential(env, EnvUser, config.username), Credential(env, EnvPass, config.password))
  {
    var username := Getenv(env, EnvUser);
    var password := Getenv(env, EnvPass);
    if username == "" {
      username := ValueString(config.username);
    }
    if password == "" {
      password := ValueString(config.password);
    }

    var diags: seq<Diagnostic> := [];
    if username == "" {
      diags := diags + [UsernameMissing];
    }
    if password == "" {
      diags := diags + [PasswordMissing];
    }
    if |diags| > 0 {
      return Configured(diags, None, None);
    }

    assert Fold([WithAuth(username, password)]) == Fold([]).(auth := Some(Auth(username, password)));
    var built := New([WithAuth(username, password)], env, parseProxy);
    match built {
      case Built(client) =>
        r := Configured(diags, Some(client), Some(client));
      case Fatal(_) =>
        assert false;
    }
  }

  /** The client is built from the environment whenever both variables are
      set, whatever the configuration says. */
  lemma EnvironmentWins(c1: ProviderModel, c2: ProviderModel, env: map<string, string>)
    requires Getenv(env, EnvUser) != "" && Getenv(env, EnvPass) != ""
    ensures CredentialChecks(c1, env) == CredentialChecks(c2, env)
    ensures Credential(env, EnvUser, c1.username) == Credential(env, EnvUser, c2.username) == Getenv(env, EnvUser)
    ensures Credential(env, EnvPass, c1.password) == Credential(env, EnvPass, c2.password) == Getenv(env, EnvPass)
  {
  }

  /** Both credentials are checked: with neither given, both errors are
      reported, the username's first. */
  lemma BothCredentialsReported(config: ProviderModel, env: map<string, string>)
    requires Credential(env, EnvUser, config.username) == "" && Credential(env, EnvPass, config.password) == ""
    ensures Reported(CredentialChecks(config, env)) == [UsernameMissing, PasswordMissing]
  {
    var cs := CredentialChecks(config, env);
    assert cs[..1] == [cs[0]];
    assert cs[..1][..0] == [];
  }

  /** The resources and data sources, by type name suffix. */
  datatype Registered =
    | RemoteSubnet4Resource | RemoteOptionDef4Resource | ReservationResource
    | RemoteSubnet4DataSource | RemoteOptionDef4DataSource | ReservationDataSource

  predicate IsResource(x: Registered) {
    x.RemoteSubnet4Resource? || x.RemoteOptionDef4Resource? || x.ReservationResource?
  }

  /** `Resources`: all three resources, each once, in a fixed order. */
  function Resources(): (rs: seq<Registered>)
    ensures |rs| == 3 && forall x :: x in rs <==> IsResource(x)
    ensures forall i, j | 0 <= i < j < |rs| :: rs[i] != rs[j]
  {
    [RemoteSubnet4Resource, RemoteOptionDef4Resource, ReservationResource]
  }

  /** `DataSources`: all three data sources, each once, in a fixed order. */
  function DataSources(): (ds: seq<Registered>)
    ensures |ds| == 3 && forall x :: x in ds <==> !IsResource(x)
    ensures forall i, j | 0 <= i < j < |ds| :: ds[i] != ds[j]
  {
    [RemoteSubnet4DataSource, RemoteOptionDef4DataSource, ReservationDataSource]
  }
}
