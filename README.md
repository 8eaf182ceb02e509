# Kea configuration-backend provider: a Dafny model

This project models the deterministic core of the Terraform provider for the
Kea DHCP control agent (`terraform-provider-kea-cb`). It has two layers:

- the Go client in `tools/kea`, which builds Kea commands
  (`{"command", "service", "arguments"}`), normalises the host into an
  `https://…/` URL, classifies the 200-OK JSON array Kea answers with, and
  picks each call's result out of the decoded reply;
- the provider in `internal/provider`:
  - it validates Terraform configuration into a list of diagnostics;
  - it derives a subnet id from the CIDR text;
  - it maps desired state to wire records, copying the optional fields only
    when they are known;
  - it maps replies back into state;
  - it tolerates any client error whose text contains `"not found"`.

The network is an input. A `Kea.Wire<T>` value is exactly one of:

- the request could not be built;
- a transport error;
- an unparsable body;
- a decoded array of envelopes, each with its `arguments` absent,
  undecodable, or decoded.

Terraform attribute values are `Framework.Attr<T> = Null | Unknown | Known(v)`.
Each resource operation returns a `Framework.Applied` value, which holds the
diagnostics, the client call issued (if any) and the state saved (if any).

Files, one module each:

| file | module | models |
|---|---|---|
| `wrappers.dfy` | `Wrappers` | `Option` and `Result` |
| `text.dfy` | `Text` | `strings.Contains`, `strings.Split(…)[0]`, `strings.NewReplacer`, `strconv.Atoi`, `%d`, `int64` wrap-around |
| `json.dfy` | `Json` | JSON values and `encoding/json`'s `omitempty` rule for structs |
| `kea.dfy` | `Kea` | `kea.go`: requests, `make`, `checkResponse`, `do` |
| `options.dfy` | `KeaOptions` | `options.go`: setters, option folding, `processOptions` |
| `remote_subnet4.dfy` | `Subnet4Client` | `remote_subnet4.go` |
| `remote_option_def4.dfy` | `OptionDef4Client` | `remote_option_def4.go` |
| `reservation.dfy` | `ReservationClient` | `reservation.go` |
| `remote_option4.dfy` | `Option4Client` | `remote_option4.go` |
| `lease4.dfy` | `Lease4Client` | `lease4.go` |
| `ha.dfy` | `HaClient` | `ha.go` |
| `framework.dfy` | `Framework` | attribute values and diagnostics |
| `option_models.dfy` | `ProviderModels` | the for-append loops shared by the resources |
| `subnet_resource.dfy`, `subnet_data_source.dfy` | `SubnetResource`, `SubnetDataSource` | the subnet resource and data source |
| `option_def_resource.dfy`, `option_def_data_source.dfy` | `OptionDefResource`, `OptionDefDataSource` | the option-definition resource and data source |
| `reservation_resource.dfy`, `reservation_data_source.dfy` | `ReservationResource`, `ReservationDataSource` | the reservation resource and data source |
| `provider.dfy` | `Provider` | `provider.go` |

Behaviour of the code worth noting:

- The subnet id is the prefix's digits read as one decimal number, so
  `"10.0.0.0/8"` derives the id 10000 (`SubnetResource.CidrToIDTenSlashEight`)
  and distinct prefixes can collide (`SubnetResource.CidrToIDNotInjective`).
- The subnet and reservation resources' `Delete` report a "not found"
  error like any other error; only the reads tolerate it.
- In the provider's `Configure`, the `KEA_USERNAME`/`KEA_PASSWORD`
  environment variables win over the configuration, although the comment at
  `provider.go:75-76` says the configuration overrides them
  (`Provider.EnvironmentWins`).
- `do` means to annotate the error with the body's close error. In the code
  that annotation is lost, because `err` is not a named result. The model
  loses it too.

## Model

| member | source | states |
|---|---|---|
| `Text.WrapInt64` | tools/kea/options.go:76-78 | the `time.Duration` product is reduced into the `int64` range; it is congruent to the exact product modulo 2^64 and equals it whenever it fits |
| `Text.Decimal` | tools/kea/kea.go:136 | `%d` writes a negative number as `-` followed by its digits, and any other number as its digits alone |
| `Text.Atoi` | internal/provider/remote_subnet4_resource.go:162 | `strconv.Atoi` succeeds only with a value in the `int64` range, and only on text that starts with a digit or a sign |
| `Text.AtoiNeedsDigits` | internal/provider/remote_subnet4_resource.go:162 | every text `Atoi` accepts is one or more decimal digits after an optional sign |
| `Text.AtoiUnsigned` | internal/provider/remote_subnet4_resource.go:162 | an unsigned digit run parses to its value whenever that value fits in `int64` |
| `Text.AtoiNegative` | internal/provider/remote_subnet4_resource.go:162 | a minus sign followed by digits parses to the negated value whenever that fits in `int64` |
| `Text.AtoiDecimal` | tools/kea/kea.go:136 | `Atoi` reads back what `%d` writes, for every `int64` (a round trip) |
| `Text.BeforeFirst` | internal/provider/remote_subnet4_resource.go:162 | `strings.Split(s, "/")[0]` is a prefix of `s` without `/`, and is followed in `s` by `/` unless it is all of `s` |
| `Text.BeforeFirstOfJoin` | internal/provider/remote_subnet4_resource.go:162 | for an address without `/`, the text before the first `/` of `address/mask` is the address |
| `Text.Without` | internal/provider/remote_subnet4_resource.go:21 | the replacer's output is no longer than its input and contains none of the removed characters |
| `Text.WithoutOfJoin` | internal/provider/remote_subnet4_resource.go:21 | removing characters commutes with concatenation |
| `Json.MembersAreUnomittedFields` | tools/kea/kea.go:40-44 | a struct with distinct keys serialises as exactly its fields that `omitempty` does not drop, each with its value |
| `Json.Struct` | tools/kea/kea.go:40-44 | a serialised struct is the object of its unomitted members |
| `Framework.ValueOr` | internal/provider/reservation_resource.go:195-198 | `ValueString`/`ValueInt64`/`ValueBool` give the value when it is known and the zero value when it is null or unknown |
| `Framework.Reported` | internal/provider/remote_subnet4_resource.go:147-159 | the diagnostics are never more than the checks |
| `Framework.ReportedAll` | internal/provider/remote_subnet4_resource.go:147-159 | validation reports nothing exactly when no check fails, and every failing check's diagnostic is reported, so errors accumulate before the stop |
| `Kea.Dhcp4Command` | tools/kea/kea.go:40-44 | a command carries its name and arguments unchanged, with service `["dhcp4"]` |
| `Kea.EncodeRequest` | tools/kea/kea.go:40-44 | the serialised request always has `command`; it has `arguments` and `service` exactly when they are not empty, with their values; it has no other member |
| `Kea.NormalizeURL` | tools/kea/kea.go:78-83 | the normalised URL starts with `https://` and ends with `/` |
| `Kea.NormalizeKeepsNormal` | tools/kea/kea.go:78-83 | a URL that already has the prefix and the trailing slash is returned unchanged |
| `Kea.NormalizeIdempotent` | tools/kea/kea.go:78-83 | normalising twice is normalising once |
| `Kea.NormalizeWrapsHttp` | tools/kea/kea.go:78-80 | only `https://` counts as a scheme: `http://h` becomes `https://http://h/` |
| `Kea.Make` | tools/kea/kea.go:67-110 | `make` fails exactly when `http.NewRequest` rejects the normalised URL; otherwise the request carries the normalised URL, JSON content-type and accept headers, the client's Basic-auth credentials and the encoded body |
| `Kea.NotFoundIsInText` | tools/kea/kea.go:132-136 | a result-code error counts as "not found" exactly when the server's text contains `not found` |
| `Kea.NotFoundIgnoresCode` | tools/kea/kea.go:136 | not-found detection does not depend on the result code |
| `Kea.LocalErrorsAreFound` | tools/kea/error.go:5-12 | the empty-envelope error and the invalid IP and MAC errors never read as "not found" |
| `Kea.CheckResponse` | tools/kea/kea.go:123-137 | an unparsable body and an empty array are errors; only element 0 is inspected; result 0 returns it and any other result becomes `result:<code>(<text>)` |
| `Kea.CheckResponseFirstOnly` | tools/kea/kea.go:132-136 | envelopes after the first never change the outcome |
| `Kea.Do` | tools/kea/kea.go:141-177 | a transport or classification failure returns no envelope and leaves the target untouched; without a target the error is set exactly when no envelope is returned; an envelope comes with an error only when decoding was asked for and its arguments were malformed |
| `Kea.Call` | tools/kea/kea.go:141-177 | with a decode target, the call succeeds exactly when the envelope is accepted and its arguments decode (absent arguments decode as nothing); the target is the decoded value, the zero value, or the partial decode |
| `Kea.CallUndecoded` | tools/kea/kea.go:170-172 | with no target, the call succeeds exactly when the envelope is accepted, whatever its arguments |
| `Kea.Finish` | tools/kea/remote_subnet4.go:75-86 | a client method returns the extracted reply field and no error on success, and its zero result with the call's error otherwise |
| `Kea.StatusOf` | tools/kea/reservation.go:96-100 | a call whose reply is decoded and dropped returns nil exactly when it succeeded, and the call's error otherwise; the same shape ends `RemoteOptionDef4Set` and `RemoteOptionDef4Del` (tools/kea/remote_option_def4.go:38-42) |
| `KeaOptions.LastOfKind` | tools/kea/options.go:66-70 | the last setter of kind `k`, or none exactly when no setter has that kind: the result is the setter at some position of kind `k` after which no setter has kind `k` |
| `KeaOptions.SlotOfSet` | tools/kea/options.go:29-64 | a setter writes its own field and leaves the other four unchanged |
| `KeaOptions.LastSetterWins` | tools/kea/options.go:66-70 | options apply left to right: every field holds exactly the last setter of its kind |
| `KeaOptions.SecondRemoteWins` | tools/kea/options.go:60-70 | of two `WithRemote` options the later wins, and a setter of another kind between them survives |
| `KeaOptions.Options.constructor` | tools/kea/options.go:67 | a new options record has every field unset |
| `KeaOptions.Options.Run` | tools/kea/options.go:68-70 | applying one option closure updates the options record as `Set` says |
| `KeaOptions.ResolveAuth` | tools/kea/options.go:95-105 | `WithAuth` credentials are used verbatim; the environment is read only when no `WithAuth` was given |
| `KeaOptions.New` | tools/kea/options.go:66-118 | construction is fatal exactly when the proxy URL does not parse or a resolved credential is empty; otherwise the client has the resolved auth, remote `postgresql` unless given, level Info unless given, the timeout only when given, and a TLS-skipping transport unless a proxy replaced it |
| `Provider.Credential` | internal/provider/provider.go:77-85 | the environment variable is used when not empty; the configured value is used otherwise |
| `Provider.CredentialMissing` | internal/provider/provider.go:80-96 | a credential is missing exactly when both the variable and the configured value are empty |
| `Provider.Configure` | internal/provider/provider.go:57-118 | each missing credential adds its own attribute error; a client is built exactly when there is none, from the resolved credentials, and the same client is shared by resources and data sources |
| `Provider.EnvironmentWins` | internal/provider/provider.go:75-85 | with both variables set, the configuration changes neither the credentials nor the checks |
| `Provider.BothCredentialsReported` | internal/provider/provider.go:88-105 | with both credentials missing, both errors are reported, username first |
| `Provider.Resources` | internal/provider/provider.go:121-127 | exactly the three resources are registered, each once |
| `Provider.DataSources` | internal/provider/provider.go:130-136 | exactly the three data sources are registered, each once |
| `HaClient.HeartbeatRequest` | tools/kea/ha.go:22 | the command is `ha-heartbeat` with service `["dhcp4"]` and no arguments member |
| `HaClient.HeartbeatResult` | tools/kea/ha.go:20-32 | on success the decoded heartbeat is returned; a build, transport or result error is propagated |
| `Lease4Client.GetAllRequest` | tools/kea/lease4.go:27-30 | nil subnet ids give no arguments; any other list, even an empty one, is sent as `subnets` |
| `Lease4Client.NilAndEmptySubnetsDiffer` | tools/kea/lease4.go:28-30 | a nil id list serialises without `arguments`, and an empty one with `{"subnets": []}` |
| `Lease4Client.ByIPRequest` | tools/kea/lease4.go:51-55 | `lease4-get` is keyed by `ip-address` |
| `Lease4Client.ByHostRequest` | tools/kea/lease4.go:70-74 | `lease4-get-by-hostname` is keyed by `hostname` |
| `Lease4Client.ByMacRequest` | tools/kea/lease4.go:92-96 | `lease4-get-by-hw-address` is keyed by `hw-address` |
| `Lease4Client.DelRequest` | tools/kea/lease4.go:114-118 | `lease4-del` is keyed by `ip-address`, with no `remote` |
| `Lease4Client.LeasesResult` | tools/kea/lease4.go:79-85 | a list lookup returns the reply's leases, or nil with the error |
| `Lease4Client.LeaseResult` | tools/kea/lease4.go:49-64 | a single lookup returns the decoded lease, or the zero or partial lease with the error |
| `Lease4Client.DelResult` | tools/kea/lease4.go:113-128 | `DelLease4` returns the envelope text on an accepted reply, and `""` with the error otherwise |
| `Lease4Client.DelIgnoresMalformedArguments` | tools/kea/lease4.go:123-127 | undecodable arguments do not fail `DelLease4`, which decodes nothing |
| `Subnet4Client.PoolJson` | tools/kea/remote_subnet4.go:48-50 | a pool is sent as `{"pool": …}` |
| `Subnet4Client.RelayJson` | tools/kea/remote_subnet4.go:43-45 | a relay sends `ip-addresses` exactly when there are some |
| `Subnet4Client.OptionDataJson` | tools/kea/remote_subnet4.go:53-59 | option data omits `code` and `space` exactly when nil, and always sends `data`, `name` and `always-send` |
| `Subnet4Client.NewSubnetJson` | tools/kea/remote_subnet4.go:32-40 | a new subnet always sends its `id` and `subnet` |
| `Subnet4Client.NewSubnetJsonKeys` | tools/kea/remote_subnet4.go:32-40 | the relay is never omitted, being a struct, and `user-context` is sent exactly when not empty |
| `Subnet4Client.NewSubnetJsonNameAndRelay` | tools/kea/remote_subnet4.go:35-38 | a nil shared-network name is sent as `null`, and the relay is always sent |
| `Subnet4Client.NewSubnetJsonLists` | tools/kea/remote_subnet4.go:36-37 | pools and option data are sent one-to-one, in order |
| `Subnet4Client.ListRequest` | tools/kea/remote_subnet4.go:66-73 | `remote-subnet4-list` carries exactly `remote` and `server-tags ["all"]` |
| `Subnet4Client.GetByPrefixRequest` | tools/kea/remote_subnet4.go:93-100 | get-by-prefix sends `remote` and `subnets [{"subnet": prefix}]`, with no server tags |
| `Subnet4Client.GetByIDRequest` | tools/kea/remote_subnet4.go:120-127 | get-by-id sends `remote` and `subnets [{"id": id}]`, with no server tags |
| `Subnet4Client.DelByPrefixRequest` | tools/kea/remote_subnet4.go:145-152 | del-by-prefix sends `remote` and `subnets [{"subnet": prefix}]`, with no server tags |
| `Subnet4Client.DelByIDRequest` | tools/kea/remote_subnet4.go:170-177 | del-by-id sends `remote` and `subnets [{"id": id}]`, with no server tags |
| `Subnet4Client.SetRequest` | tools/kea/remote_subnet4.go:195-203 | `remote-subnet4-set` sends the caller's subnets verbatim and in order, with `remote` and `server-tags ["all"]` |
| `Subnet4Client.ServerTagsOnlyOnListAndSet` | tools/kea/remote_subnet4.go:66-203 | every subnet command uses `dhcp4` and the client's remote; only list and set carry server tags |
| `Subnet4Client.ListResult` | tools/kea/remote_subnet4.go:80-86 | list and set return the reply's subnets, or nil with the error |
| `Subnet4Client.SubnetResult` | tools/kea/remote_subnet4.go:107-113 | get-by returns element 0 of a successful reply, or the zero subnet with the error |
| `Subnet4Client.CountResult` | tools/kea/remote_subnet4.go:159-165 | the deletes return the server's `count`, or 0 with the error |
| `OptionDef4Client.OptionDefJson` | tools/kea/remote_option_def4.go:10-18 | a definition always sends its `code` |
| `OptionDef4Client.OptionDefJsonOmitsEmpty` | tools/kea/remote_option_def4.go:11-17 | name, type, record types, space and encapsulate are sent exactly when not empty, and `array` exactly when true |
| `OptionDef4Client.OptionDefJsonValues` | tools/kea/remote_option_def4.go:11-17 | each field that is sent carries its value |
| `OptionDef4Client.OptionDefJsonKeys` | tools/kea/remote_option_def4.go:10-18 | no member other than the seven fields is sent |
| `OptionDef4Client.KeySerialisesSpaceAndCode` | tools/kea/remote_option_def4.go:53 | the lookup key `{Space, Code}` sends only `code` and, when not empty, `space` |
| `OptionDef4Client.SetRequest` | tools/kea/remote_option_def4.go:23-31 | set sends `option-defs [def]` with `remote` and `server-tags ["all"]` |
| `OptionDef4Client.GetRequest` | tools/kea/remote_option_def4.go:47-55 | get identifies the definition by space and code only |
| `OptionDef4Client.DelRequest` | tools/kea/remote_option_def4.go:81-89 | del identifies the definition by space and code only |
| `OptionDef4Client.GetResult` | tools/kea/remote_option_def4.go:46-77 | an error from `make` is passed on unchanged; a "not found" error from `do` gives absent and no error; any other error is passed on; a success gives absent for an empty list and element 0 otherwise |
| `OptionDef4Client.GetResultAbsentOnNotFoundText` | tools/kea/remote_option_def4.go:67-70 | a non-zero result gives no error exactly when its text contains `not found` |
| `Option4Client.OptionReqJson` | tools/kea/remote_option4.go:9-12 | an option always sends `code`, and sends `data` exactly when not empty |
| `Option4Client.OptionReqsJson` | tools/kea/remote_option4.go:23 | a nil option list is sent as `null`; any other list is sent one-to-one |
| `Option4Client.SubnetOptionsRequest` | tools/kea/remote_option4.go:17-25 | subnet option commands send `remote`, `subnets [{"id": id}]` and the options verbatim, with no server tags |
| `Option4Client.SetRequest` | tools/kea/remote_option4.go:17-25 | set uses `remote-option4-subnet-set` |
| `Option4Client.DelRequest` | tools/kea/remote_option4.go:43-51 | del uses `remote-option4-subnet-del` |
| `Option4Client.OptionsResult` | tools/kea/remote_option4.go:32-38 | both return the reply's options, or nil with the error |
| `ReservationClient.ReservationJson` | tools/kea/reservation.go:10-23 | `ip-address`, `hw-address`, `hostname` and `subnet-id` are always sent, with their values |
| `ReservationClient.ReservationJsonOmitsEmptyIdentifiers` | tools/kea/reservation.go:12-15 | client id, circuit id, DUID and flex id are each sent exactly when not empty |
| `ReservationClient.ReservationJsonOmitsEmptyBoot` | tools/kea/reservation.go:11-22 | boot file name, next server, option data and user context are each sent exactly when not empty |
| `ReservationClient.GetAllRequest` | tools/kea/reservation.go:28-32 | `reservation-get-all` sends only `subnet-id`, with no `remote` or server tags |
| `ReservationClient.GetAllResult` | tools/kea/reservation.go:39-45 | get-all returns the reply's hosts, or nil with the error |
| `ReservationClient.AddRequest` | tools/kea/reservation.go:59-63 | `reservation-add` sends the reservation, with no `remote` or server tags |
| `ReservationClient.Add` | tools/kea/reservation.go:49-77 | a bad IP gives the invalid-IP error with no request, even when the MAC is bad too; a bad MAC gives the invalid-MAC error with no request; otherwise the reservation is sent with its MAC in canonical form and everything else unchanged |
| `ReservationClient.DelRequest` | tools/kea/reservation.go:85-89 | `reservation-del` sends exactly `subnet-id` and `ip-address` |
| `ReservationClient.Del` | tools/kea/reservation.go:80-101 | only the IP is validated; a bad IP sends nothing |
| `ProviderModels.OptionDataOf` | internal/provider/remote_subnet4_resource.go:183-190 | an option block becomes option data whose code is always set (0 when not known) and whose space is never set |
| `ProviderModels.OptionModelOf` | internal/provider/remote_subnet4_resource.go:281-291 | option data from Kea becomes a block of known values, with a nil code read as 0 |
| `ProviderModels.OptionModelRoundTrip` | internal/provider/remote_subnet4_resource.go:183-190 | a fully known option block survives sending and reading back |
| `ProviderModels.OptionDataRoundTrip` | internal/provider/remote_subnet4_resource.go:281-291 | option data without a space survives reading and re-sending, except that a nil code comes back as 0 |
| `ProviderModels.OptionDataList` | internal/provider/remote_subnet4_resource.go:181-193 | option blocks map one-to-one and in order |
| `ProviderModels.OptionModelList` | internal/provider/remote_subnet4_resource.go:279-294 | reply option data maps one-to-one and in order |
| `ProviderModels.PoolList` | internal/provider/remote_subnet4_resource.go:174-180 | pool blocks map one-to-one and in order |
| `ProviderModels.PoolModelList` | internal/provider/remote_subnet4_resource.go:295-301 | reply pools map one-to-one and in order, as known values |
| `ProviderModels.RelayOf` | internal/provider/remote_subnet4_resource.go:194-203 | relay blocks become the relay's addresses in order, and no blocks give no addresses |
| `ProviderModels.RelayModelList` | internal/provider/remote_subnet4_resource.go:302-308 | reply relay addresses map one-to-one and in order |
| `ProviderModels.PoolsRoundTrip` | internal/provider/remote_subnet4_resource.go:295-301 | pools read from Kea are sent back unchanged |
| `ProviderModels.RelayRoundTrip` | internal/provider/remote_subnet4_resource.go:302-308 | relay addresses read from Kea are sent back unchanged |
| `ProviderModels.OptionDataFromModels` | internal/provider/remote_subnet4_resource.go:181-193 | the for-append loop builds `OptionDataList` of the blocks |
| `ProviderModels.OptionModelsFromData` | internal/provider/remote_subnet4_resource.go:279-294 | the for-append loop builds `OptionModelList` of the reply |
| `ProviderModels.PoolsFromModels` | internal/provider/remote_subnet4_resource.go:174-180 | the for-append loop builds `PoolList` of the blocks |
| `ProviderModels.PoolModelsFromPools` | internal/provider/remote_subnet4_resource.go:295-301 | the for-append loop builds `PoolModelList` of the reply |
| `ProviderModels.RelayFromModels` | internal/provider/remote_subnet4_resource.go:194-203 | the early return and the for-append loop build `RelayOf` of the blocks |
| `ProviderModels.RelayModelsFromRelay` | internal/provider/remote_subnet4_resource.go:302-308 | the for-append loop builds `RelayModelList` of the reply |
| `ProviderModels.PoolStrings` | internal/provider/remote_subnet4_data_source.go:205-213 | the data source flattens the pools to their strings, in reply order |
| `ProviderModels.RelayStrings` | internal/provider/remote_subnet4_data_source.go:214-222 | the data source flattens the relay to its addresses, in reply order |
| `SubnetResource.CidrDigits` | internal/provider/remote_subnet4_resource.go:21 | the id text contains no `.`, `/` or space |
| `SubnetResource.CidrToIDIgnoresMask` | internal/provider/remote_subnet4_resource.go:162 | prefixes that differ only in mask length give the same id |
| `SubnetResource.CidrToIDOnlyDigits` | internal/provider/remote_subnet4_resource.go:162 | addresses that agree once the separators are removed give the same id |
| `SubnetResource.DottedQuadDigits` | internal/provider/remote_subnet4_resource.go:162 | the id text of `a.b.c.d/m` is the four octets concatenated |
| `SubnetResource.CidrToIDExample` | tools/kea/examples/example.go:15-16 | `192.168.227.0/24` gives 1921682270 |
| `SubnetResource.CidrToIDNotInjective` | internal/provider/remote_subnet4_resource.go:162 | `1.11.1.0/24` and `11.1.1.0/24` both give 11110 |
| `SubnetResource.CidrToIDTenSlashEight` | internal/provider/remote_subnet4_resource.go:162 | `10.0.0.0/8` gives 10000 |
| `SubnetResource.RequiredChecksPass` | internal/provider/remote_subnet4_resource.go:147-159 | validation reports nothing exactly when `subnet` and `hostname` are both known and not empty |
| `SubnetResource.BuildNewSubnet` | internal/provider/remote_subnet4_resource.go:171-204 | the wire subnet carries the derived id, the prefix, and the pools, option data and relay built from the blocks |
| `SubnetResource.Create` | internal/provider/remote_subnet4_resource.go:139-235 | both required errors are collected before stopping; a parse failure reports and sends nothing; otherwise one set is sent; state is saved exactly when exactly one subnet comes back, with `id` and `subnet` taken from the reply; each failure reports its own text |
| `SubnetResource.BuildReadState` | internal/provider/remote_subnet4_resource.go:278-309 | the state is rebuilt from the subnet read, with the hostname kept |
| `SubnetResource.Read` | internal/provider/remote_subnet4_resource.go:238-313 | after validation a get-by-prefix is sent; a "not found" error is tolerated and any other is reported; state is saved exactly when no error is reported |
| `SubnetResource.Update` | internal/provider/remote_subnet4_resource.go:316-410 | as `Create`, with Update's error texts |
| `SubnetResource.Delete` | internal/provider/remote_subnet4_resource.go:413-442 | delete is keyed by prefix, ignores the count, saves no state, and reports any client error |
| `SubnetResource.ReadOfAbsentSubnet` | internal/provider/remote_subnet4_resource.go:276-309 | a tolerated "not found" saves id 0, empty lists and subnet `""` |
| `SubnetResource.ReadThenSend` | internal/provider/remote_subnet4_resource.go:278-309 | a subnet read and sent again keeps its prefix, pools and relay, and its option data up to nil codes and spaces |
| `SubnetDataSource.SourceChecksPass` | internal/provider/remote_subnet4_data_source.go:129-148 | validation reports nothing exactly when exactly one of `prefix`/`subnet_id` is non-null and the hostname is not empty |
| `SubnetDataSource.Lookup` | internal/provider/remote_subnet4_data_source.go:150-178 | for a valid configuration, a known prefix selects get-by-prefix and a known subnet id selects get-by-id |
| `SubnetDataSource.BuildSourceState` | internal/provider/remote_subnet4_data_source.go:188-223 | the state is the subnet read, with the pools and relay flattened to string lists |
| `SubnetDataSource.Read` | internal/provider/remote_subnet4_data_source.go:121-231 | both configuration errors are collected; the selected lookup is sent; "not found" is tolerated in both branches and any other error is reported under that branch's summary |
| `SubnetDataSource.SourceAgreesWithResource` | internal/provider/remote_subnet4_data_source.go:188-223 | the data source and the resource save the same id, prefix, option data, pools and relay from one subnet |
| `OptionDefResource.DefChecksPass` | internal/provider/remote_option_def4_resource.go:122-149 | create/update validation reports nothing exactly when hostname, code, name, type and space are all given |
| `OptionDefResource.KeyChecksPass` | internal/provider/remote_option_def4_resource.go:193-210 | read/delete validation reports nothing exactly when hostname, code and space are given |
| `OptionDefResource.ValidateDef` | internal/provider/remote_option_def4_resource.go:122-149 | the five checks append their errors in order; the result is empty exactly when the definition is valid |
| `OptionDefResource.ValidateKey` | internal/provider/remote_option_def4_resource.go:333-350 | the three key checks append their errors in order; the result is empty exactly when the key is valid |
| `OptionDefResource.BuildDef` | internal/provider/remote_option_def4_resource.go:151-166 | the wire definition takes name, code, type and space, and takes array, record types and encapsulate only when known |
| `OptionDefResource.DefSendsConfig` | internal/provider/remote_option_def4_resource.go:151-156 | a valid configuration sends its name, code, type and space |
| `OptionDefResource.DefSendsArrayWhenTrue` | internal/provider/remote_option_def4_resource.go:158-160 | `array` is sent exactly when configured as known true |
| `OptionDefResource.SetDefinition` | internal/provider/remote_option_def4_resource.go:151-175 | after validation the definition is set; success saves the configuration unchanged; a failure reports the error and the `%v` rendering |
| `OptionDefResource.Create` | internal/provider/remote_option_def4_resource.go:114-183 | an invalid configuration reports the `RemoteOptionDef4Set` checks and sends nothing; a valid one sends the definition built from it; state is saved, unchanged, exactly when the set succeeds; otherwise Create's text is reported |
| `OptionDefResource.Update` | internal/provider/remote_option_def4_resource.go:259-323 | as `Create`, sending the same definition through `RemoteOptionDef4Set`, with the checks under `RemoteOptionDef4Update` and Update's failure text |
| `OptionDefResource.Delete` | internal/provider/remote_option_def4_resource.go:326-360 | delete is keyed by space and code and reports any client error |
| `OptionDefResource.Merge` | internal/provider/remote_option_def4_resource.go:236-247 | only a non-empty type, record types or encapsulate and a true array overwrite the state |
| `OptionDefResource.ReadAsWritten` | internal/provider/remote_option_def4_resource.go:186-256 | the read as written: validation reports a missing hostname under `ReservationAdd`; it panics exactly when the key is valid and the client returns no definition together with either no error or a "not found" error; a definition found is merged into the state |
| `OptionDefResource.ReadAsWrittenPanicsOnUnknownDefinition` | tools/kea/remote_option_def4.go:67-70 | a code-3 `option definition not found` reply makes the client return neither a definition nor an error |
| `OptionDefResource.Read` | internal/provider/remote_option_def4_resource.go:186-256 | the corrected read: errors other than "not found" are reported; when the error is tolerated or the definition is absent the state is saved unchanged, and a definition found is merged |
| `OptionDefResource.ReadAfterCreateKeepsState` | internal/provider/remote_option_def4_resource.go:236-247 | reading back what was created leaves the state unchanged |
| `OptionDefResource.MergeIdempotent` | internal/provider/remote_option_def4_resource.go:236-247 | merging the same definition twice is merging once |
| `OptionDefResource.MergeKeepsKnown` | internal/provider/remote_option_def4_resource.go:236-247 | a merge never makes a known field unknown and never refreshes name, code or space |
| `OptionDefDataSource.Overwrite` | internal/provider/remote_option_def4_data_source.go:159-162 | type, array, record types and encapsulate are overwritten unconditionally |
| `OptionDefDataSource.Read` | internal/provider/remote_option_def4_data_source.go:101-175 | hostname, code and space are required; an error other than "not found" is reported; a tolerated error or an absent result saves the configuration unchanged and a present one overwrites |
| `OptionDefDataSource.ReportedIgnoresConfig` | internal/provider/remote_option_def4_data_source.go:159-162 | the four refreshed fields depend only on the definition read |
| `OptionDefDataSource.SourceAgreesWithResource` | internal/provider/remote_option_def4_data_source.go:159-162 | the data source's overwrite and the resource's merge agree exactly when every field left empty or false by Kea was already known as empty or false |
| `ReservationResource.ResvChecksPass` | internal/provider/reservation_resource.go:165-192 | create/update validation reports nothing exactly when subnet id, hostname, reservation hostname, IP and MAC are all given |
| `ReservationResource.ReadAndDelChecksPass` | internal/provider/reservation_resource.go:264-281 | read needs only subnet id, hostname and reservation hostname; delete adds the IP but not the MAC |
| `ReservationResource.ValidateResv` | internal/provider/reservation_resource.go:165-192 | the five checks append their errors in order; the result is empty exactly when valid |
| `ReservationResource.ValidateKey` | internal/provider/reservation_resource.go:466-487 | the first three checks, and for delete the IP check, append their errors in order |
| `ReservationResource.ContextSent` | internal/provider/reservation_resource.go:212-218 | the user context sent has the configured keys, each with the framework rendering of its value; a null map gives an empty one |
| `ReservationResource.ContextFromElements` | internal/provider/reservation_resource.go:212-218 | the loop over the map's elements builds `ContextSent` |
| `ReservationResource.CopyGiven` | internal/provider/reservation_resource.go:220-237 | an optional field is copied only when known, and otherwise stays `""` |
| `ReservationResource.BuildResv` | internal/provider/reservation_resource.go:194-237 | the wire reservation takes the required fields, the option data and the user context, and each optional field only when known |
| `ReservationResource.Create` | internal/provider/reservation_resource.go:157-254 | after validation the reservation is added; the configuration is saved unchanged exactly when the add succeeds; a client or pre-validation error is reported with the `%v` rendering |
| `ReservationResource.Update` | internal/provider/reservation_resource.go:364-456 | as `Create`, through `ReservationUpdate`, with Update's summary and text |
| `ReservationResource.Delete` | internal/provider/reservation_resource.go:459-498 | delete is keyed by IP and subnet id, saves no state, and reports any error, including an invalid IP |
| `ReservationResource.LookupKey` | internal/provider/reservation_resource.go:286-291 | the read key is the IP when known and not empty, and the MAC otherwise |
| `ReservationResource.ShownNextServer` | internal/provider/reservation_resource.go:312-315 | `0.0.0.0` reads back as `""`; every other next server is kept |
| `ReservationResource.ContextShown` | internal/provider/reservation_resource.go:342-352 | a reply's user context keeps its keys, each with the `%v` rendering of its value |
| `ReservationResource.ContextFromReply` | internal/provider/reservation_resource.go:343-351 | the loop over the reply's map builds `ContextShown` |
| `ReservationResource.BuildReadState` | internal/provider/reservation_resource.go:312-352 | the state takes every field of the reply, with the next server normalised, and replaces the user context only when the reply has one |
| `ReservationResource.Read` | internal/provider/reservation_resource.go:257-361 | after validation the reservation is fetched by the lookup key; "not found" is tolerated and any other error is reported; state is saved exactly when nothing is reported |
| `ReservationResource.ReadThenSend` | internal/provider/reservation_resource.go:316-341 | a reservation read and sent again keeps its hostname, identifiers, addresses and boot file name; a `0.0.0.0` next server becomes empty; the subnet id stays the configured one; option data keeps its order, with nil codes sent as 0 and spaces dropped |
| `ReservationResource.ZeroNextServerNotResent` | internal/provider/reservation_resource.go:312-315 | after a read, `next-server` is re-sent exactly when Kea reported one other than empty or `0.0.0.0` |
| `ReservationResource.CreateSendsConfig` | internal/provider/reservation_resource.go:194-198 | a valid configuration sends its IP, MAC, reservation hostname and subnet id |
| `ReservationResource.ContextSentWhenNotEmpty` | internal/provider/reservation_resource.go:212-218 | `user-context` is sent exactly when the configured map is not empty |
| `ReservationDataSource.SourceChecksPass` | internal/provider/reservation_data_source.go:141-159 | validation reports nothing exactly when the address is non-null and the hostname not empty; both errors come together when both fail; the subnet id is not checked |
| `ReservationDataSource.BuildSourceState` | internal/provider/reservation_data_source.go:186-222 | the state takes every field of the reply, with the next server verbatim, and replaces the user context only when the reply has one |
| `ReservationDataSource.Read` | internal/provider/reservation_data_source.go:132-235 | the lookup key is `ip_or_mac_address` verbatim; "not found" is tolerated and any other error is reported |
| `ReservationDataSource.SourceAgreesWithResource` | internal/provider/reservation_data_source.go:186-222 | the data source and the resource save the same reply alike, except that only the resource turns `0.0.0.0` into `""` |

## Left out

- HTTP transport is not modelled: `http.Client.Do`, connection pooling, proxy dialing and TLS. Each call's outcome is the `Wire` input. Only the transports' settings are modelled; the proxy that `cleanhttp.DefaultPooledTransport` reads from the environment (`ProxyFromEnvironment`, tools/kea/options.go:71) is not represented, so the model's default transport has no proxy.
- `encoding/json` is modelled only as the structure it produces. Byte-level encoding, HTML escaping and the encoder's own errors are left out. The encoder cannot fail on these record types anyway.
- `strconv.Atoi`'s error text is left out for numbers: it quotes its input with `strconv.Quote`, but the model inserts the text between plain quotes. The two differ only for texts holding quotes, backslashes or non-printable characters.
- `net.ParseIP`, `net.ParseMAC` with `HardwareAddr.String`, and `url.Parse` are standard-library code. They are parameters (`ipValid`, `parseMAC`, `parseProxy`, `urlError`).
- The `%v` rendering of records in error texts (`render`) is a parameter: it is `fmt`'s formatting of Go values.
- The framework's `attr.Value.String()` (`quote`) is a parameter: it is the framework's own formatting.
- `fmt.Sprintf("%v", v)` of a JSON value (`show`) is a parameter for the same reason.
- `ReservationGet` and `ReservationUpdate` are defined in no file of this model. `ReservationResource.Read` and `ReservationDataSource.Read` take the `ReservationGet` outcome as an input; `ReservationResource.Update` takes the `ReservationUpdate` error as an input. The outcome always carries a reservation, so the model assumes that a "not found" error comes with a reservation value and never with a nil pointer; whether `ReservationGet` returns nil there is not visible.
- The diagnostics of `req.Config.Get`, `req.State.Get`, `req.Plan.Get` and `resp.State.Set` are left out. So are those of `types.ListValue` and `types.MapValue`. Configuration and state are plain records, and these framework calls do not fail on them.
- `Metadata`, `Schema`, the resources' `Configure` type assertions and `ImportState` are Terraform glue with no logic of their own.
- Logging (logrus, tflog) is left out. `logrus.Fatal`/`Fatalf` is the outcome `KeaOptions.Fatal`, not a process exit.
- A nil `opts` slice in `RemoteOption4Set`/`Del` is `None`, which serialises as `null`.
- `SubnetResource.Read`: its `requires` is the panic of `RemoteSubnet4GetByPrefix`, which indexes element 0 of a successful but empty reply. The model assumes the reply is never empty rather than modelling the panic.
- `SubnetDataSource.Read`: the same `requires`, for `RemoteSubnet4GetByPrefix` and `RemoteSubnet4GetByID`.
- `Subnet4Client.SubnetResult`: the same `requires`, at the client.
- `SubnetDataSource.Lookup`: its `ensures` covers only a valid configuration. There the selector that is not null is known, since Terraform configuration values are never unknown at read time.
- The acceptance tests and the example program need a live server. They serve only as sources of example values.

## Findings

| source | as written | input that shows it | evidently intended | confidence | as-written member | corrected member |
|---|---|---|---|---|---|---|
| internal/provider/remote_option_def4_resource.go:213-247 | `Read` tolerates a "not found" error and then reads `respData.Type` and the other fields. But `RemoteOptionDef4Get` (tools/kea/remote_option_def4.go:68-75) has already turned "not found", and an empty `option-defs` list, into a nil definition with a nil error. So a definition removed outside Terraform makes the read dereference a nil pointer. | a valid configuration, and Kea answering `[{"result": 3, "text": "option definition not found"}]` | treat the nil definition as absent and save the state unchanged, as the option-def data source does at internal/provider/remote_option_def4_data_source.go:151-155 | not executed | `OptionDefResource.ReadAsWritten`, `OptionDefResource.ReadAsWrittenPanicsOnUnknownDefinition` | `OptionDefResource.Read` |
