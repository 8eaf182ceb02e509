/** The functional options of the Kea client and `processOptions`, which
    folds them left to right into an `options` record and then resolves the
    transport, timeout, remote, proxy, credentials and log level. */
module KeaOptions {
  import opened Wrappers
  import opened Text
  import opened Kea

  /** The `Option` closures the package offers. */
  datatype Setter =
    | SetHTTPTimeout(seconds: int)
    | WithLogLevel(level: Level)
    | WithProxy(url: string)
    | WithAuth(user: string, pass: string)
    | WithRemote(remote: string)

  /** The `options` record: every field is a possibly-nil pointer. */
  datatype Settings = Settings(
    httpTimeout: Option<int>,
    logLevel: Option<Level>,
    proxyURL: Option<string>,
    auth: Option<Auth>,
    remote: Option<string>)

  const Unset: Settings := Settings(None, None, None, None, None)

  /** What running one closure does to the record. */
  function Set(s: Settings, o: Setter): Settings {
    match o
    case SetHTTPTimeout(t) => s.(httpTimeout := Some(t))
    case WithLogLevel(l) => s.(logLevel := Some(l))
    case WithProxy(u) => s.(proxyURL := Some(u))
    case WithAuth(u, p) => s.(auth := Some(Auth(u, p)))
    case WithRemote(r) => s.(remote := Some(r))
  }

  /** The record after running `opts` in order on a fresh one. */
  function Fold(opts: seq<Setter>): Settings {
    if |opts| == 0 then Unset else Set(Fold(opts[..|opts| - 1]), opts[|opts| - 1])
  }

  /** Which field of the record a setter writes. */
  function Kind(o: Setter): nat {
    match o
    case SetHTTPTimeout(_) => 0
    case WithLogLevel(_) => 1
    case WithProxy(_) => 2
    case WithAuth(_, _) => 3
    case WithRemote(_) => 4
  }

  /** Field `k` of the record, read back as the setter that would write it. */
  function Slot(s: Settings, k: nat): Option<Setter> {
    if k == 0 then (if s.httpTimeout.Some? then Some(SetHTTPTimeout(s.httpTimeout.value)) else None)
    else if k == 1 then (if s.logLevel.Some? then Some(WithLogLevel(s.logLevel.value)) else None)
    else if k == 2 then (if s.proxyURL.Some? then Some(WithProxy(s.proxyURL.value)) else None)
    else if k == 3 then (if s.auth.Some? then Some(WithAuth(s.auth.value.username, s.auth.value.password)) else None)
    else if k == 4 then (if s.remote.Some? then Some(WithRemote(s.remote.value)) else None)
    else None
  }

  /** The last setter of kind `k` in `opts`, or none when there is no
      setter of that kind. */
  function LastOfKind(opts: seq<Setter>, k: nat): (r: Option<Setter>)
    ensures r.None? <==> forall i | 0 <= i < |opts| :: Kind(opts[i]) != k
    ensures r.Some? ==>
              exists i | 0 <= i < |opts| ::
                opts[i] == r.value && Kind(opts[i]) == k && forall j | i < j < |opts| :: Kind(opts[j]) != k
  {
    if |opts| == 0 then None
    else if Kind(opts[|opts| - 1]) == k then Some(opts[|opts| - 1])
    else
      assert forall i | 0 <= i < |opts| - 1 :: opts[..|opts| - 1][i] == opts[i];
      LastOfKind(opts[..|opts| - 1], k)
  }

  lemma SlotOfSet(s: Settings, o: Setter, k: nat)
    ensures Slot(Set(s, o), k) == if Kind(o) == k then Some(o) else Slot(s, k)
  {
  }

  /** Options apply left to right: every field holds the last setter of
      its kind, and setters of other kinds leave it alone. */
  lemma {:induction false} LastSetterWins(opts: seq<Setter>, k: nat)
    ensures Slot(Fold(opts), k) == LastOfKind(opts, k)
  {
    if |opts| > 0 {
      LastSetterWins(opts[..|opts| - 1], k);
      SlotOfSet(Fold(opts[..|opts| - 1]), opts[|opts| - 1], k);
    }
  }

  /** A concrete instance: of two `WithRemote`, the second one counts. */
  lemma SecondRemoteWins(a: string, b: string, t: int)
    ensures Fold([WithRemote(a), SetHTTPTimeout(t), WithRemote(b)]).remote == Some(b)
    ensures Fold([WithRemote(a), SetHTTPTimeout(t), WithRemote(b)]).httpTimeout == Some(t)
  {
    var opts := [WithRemote(a), SetHTTPTimeout(t), WithRemote(b)];
    assert opts[..2] == [WithRemote(a), SetHTTPTimeout(t)];
    assert opts[..2][..1] == [WithRemote(a)];
    assert opts[..2][..1][..0] == [];
  }

  /** The mutable `options` struct the closures write into. */
  class Options {
    var httpTimeout: Option<int>
    var logLevel: Option<Level>
    var proxyURL: Option<string>
    var auth: Option<Auth>
    var remote: Option<string>

    function Value(): Settings
      reads this
    {
      Settings(httpTimeout, logLevel, proxyURL, auth, remote)
    }

    /** `new(options)`: every pointer nil. */
    constructor ()
      ensures Value() == Unset
    {
      httpTimeout := None;
      logLevel := None;
      proxyURL := None;
      auth := None;
      remote := None;
    }

    /** `opt(o)`. */
    method Run(o: Setter)
      modifies this
      ensures Value() == Set(old(Value()), o)
    {
      match o
      case SetHTTPTimeout(t) => httpTimeout := Some(t);
      case WithLogLevel(l) => logLevel := Some(l);
      case WithProxy(u) => proxyURL := Some(u);
      case WithAuth(u, p) => auth := Some(Auth(u, p));
      case WithRemote(r) => remote := Some(r);
    }
  }

  /** `os.Getenv`: the empty string for an unset variable. */
  function Getenv(env: map<string, string>, name: string): string {
    if name in env then env[name] else ""
  }

  const DefaultRemote: string := "postgresql"
  const NanosPerSecond: int := 1_000_000_000
  const MissingAuthMessage: string := "Missing auth! Use versa.WithAuth() or environment vars " + EnvUser + "/" + EnvPass

  /** The credentials: `WithAuth` verbatim, otherwise the environment. */
  function ResolveAuth(s: Settings, env: map<string, string>): (a: Auth)
    ensures s.auth.Some? ==> a == s.auth.value
    ensures s.auth.None? ==> a == Auth(Getenv(env, EnvUser), Getenv(env, EnvPass))
  {
    if s.auth.Some? then s.auth.value else Auth(Getenv(env, EnvUser), Getenv(env, EnvPass))
  }

  /** `New` either yields a client or ends the process through
      `logrus.Fatal` with the given text. */
  datatype Construction = Built(client: Client) | Fatal(reason: string)

  /** `New(opts...)` with `processOptions`. `env` is the process
      environment and `parseProxy` is `url.Parse`, giving its error text on
      failure. */
  method New(opts: seq<Setter>, env: map<string, string>, parseProxy: string -> Result<string, string>)
    returns (r: Construction)
    ensures var s := Fold(opts);
      && (r.Fatal? <==>
            (s.proxyURL.Some? && parseProxy(s.proxyURL.value).Failure?)
            || ResolveAuth(s, env).username == "" || ResolveAuth(s, env).password == "")
      && (r.Fatal? && s.proxyURL.Some? && parseProxy(s.proxyURL.value).Failure? ==>
            r.reason == parseProxy(s.proxyURL.value).error)
      && (r.Fatal? && !(s.proxyURL.Some? && parseProxy(s.proxyURL.value).Failure?) ==>
            r.reason == MissingAuthMessage)
      && (r.Built? ==>
            && r.client.auth == ResolveAuth(s, env)
            && r.client.remote == s.remote.GetOr(DefaultRemote)
            && r.client.level == s.logLevel.GetOr(InfoLevel)
            && r.client.http.timeout == (if s.httpTimeout.Some? then WrapInt64(s.httpTimeout.value * NanosPerSecond) else 0)
            && r.client.http.transport ==
                 (if s.proxyURL.Some? then Transport(false, Some(s.proxyURL.value)) else Transport(true, None)))
  {
    var o := new Options();
    for i := 0 to |opts|
      invariant o.Value() == Fold(opts[..i])
    {
      assert opts[..i + 1][..i] == opts[..i];
      o.Run(opts[i]);
    }
    assert opts[..|opts|] == opts;

    var transport := Transport(true, None);
    var http := HttpClient(transport, 0);
    if o.httpTimeout.Some? {
      http := http.(timeout := WrapInt64(o.httpTimeout.value * NanosPerSecond));
    }

    var remote := DefaultRemote;
    if o.remote.Some? {
      remote := o.remote.value;
    }

    if o.proxyURL.Some? {
      var parsed := parseProxy(o.proxyURL.value);
      if parsed.Failure? {
        return Fatal(parsed.error);
      }
      // A fresh pooled transport: the TLS setting of the default one is not carried over.
      http := http.(transport := Transport(false, Some(o.proxyURL.value)));
    }

    var auth: Auth;
    if o.auth.Some? {
      auth := Auth(o.auth.value.username, o.auth.value.password);
    } else {
      auth := Auth(Getenv(env, EnvUser), Getenv(env, EnvPass));
    }
    if auth.username == "" || auth.password == "" {
      return Fatal(MissingAuthMessage);
    }

    var level := InfoLevel;
    if o.logLevel.Some? {
      level := o.logLevel.value;
    }
    r := Built(Client(http, level, auth, remote));
  }
}
