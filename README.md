# Login-flow store and generic OIDC provider client

A Dafny model of two parts of the self-service login engine.

- **The SQL persister's login-flow operations.** One flow table is shared by every tenant, and each tenant is identified by a network id (NID). Create, update, get and force all work inside the caller's tenant. The batched expiry sweep deletes expired flows of every tenant.
- **The generic OpenID Connect provider client.** It discovers the provider lazily and caches it. It derives the OAuth2 client configuration, with the mandatory `openid` scope of OpenID Connect Core 1.0, section 3.1.2.1. It decides the extra authorization-request options for a login flow. It turns a token exchange into verified claims, failing fast.

Files:

- `results.dfy` holds `Result`, `Option`, `Min` and `Max`.
- `arithmetic.dfy` holds small multiplication and division facts.
- `login_flows.dfy` holds module `LoginFlowPersister`, with the table as class `Persister`.
- `generic_oidc.dfy` holds module `GenericOIDC`, with the client as class `ProviderGenericOIDC`.

How the model is set up:

- **Tenant.** The tenant that the request context resolves to is an explicit `tenant` parameter.
- **The caller's flow object.** The caller's `*login.Flow` is a `FlowRef` object. Create and update write into it, as the source does.
- **Delete loop.** The loop keeps the source's shape: it lowers `limit` by `batch` first, stops after a pass that deleted nothing, and otherwise goes on while `batch <= limit`.
- **The sweep's plan.** The whole sweep is specified by `Passes`, the sequence of per-pass deletion counts. Without a store failure the method runs exactly that plan; a failure ends it early.
- **A single pass.** Each pass deletes `min(batch, expired)` rows. Which expired rows go is left open.
- **Forced re-authentication.** A login flow whose `refresh` flag is set asks for forced re-authentication. The lemma `GenericOIDC.ForcedFlowPromptsLogin` ties `ForceLoginFlow` to the `prompt=login` option.

Two behaviours of the code worth knowing:

- `tx.Save(lr, "nid")` writes every column except `nid`.
- 250 expired rows with limit 1000 and batch 100 run four passes (100, 100, 50, 0). The loop only stops on a pass that deleted nothing, or when `batch > limit` after the decrement; see `PassesExample`.

## Model

| member | source | states |
|---|---|---|
| LoginFlowPersister.EnsureInternalContext | persistence/sql/persister_login.go:22 | the flow's internal context is non-empty afterwards; a populated context and every other field are kept |
| LoginFlowPersister.Persister.CreateLoginFlow | persistence/sql/persister_login.go:20-24 | the caller's flow gets the caller's tenant and an ensured internal context before the insert; on success it is inserted under its id and a lookup by that tenant finds it; a failure (a conflict, which happens iff the id exists, or an unavailable store) changes nothing |
| LoginFlowPersister.Persister.UpdateLoginFlow | persistence/sql/persister_login.go:26-31 | the caller's flow only gets its internal context ensured and keeps its own NID; the stored copy carries the caller's tenant; when the store answers, it succeeds iff the caller's tenant owns the id; a failure changes nothing; flows of other tenants are unchanged |
| LoginFlowPersister.Persister.Update | persistence/sql/persister_login.go:30 | replaces the row keyed by id and NID; not found when there is none, an error when the store is unavailable, and no change on either failure |
| LoginFlowPersister.Persister.GetLoginFlow | persistence/sql/persister_login.go:33-42 | whenever the store answers, the result is `Lookup`'s: the stored flow iff both its id and its NID match, otherwise not found; the only other error is an unavailable store |
| LoginFlowPersister.LookupIsTenantScoped | persistence/sql/persister_login.go:37 | the `id = ? AND nid = ?` lookup yields a flow iff it exists and belongs to the tenant; the flow has the id and the tenant asked for |
| LoginFlowPersister.ForeignFlowLooksMissing | persistence/sql/persister_login.go:37-39 | a flow owned by another tenant gives the same error as an id that does not exist |
| LoginFlowPersister.Persister.ForceLoginFlow | persistence/sql/persister_login.go:44-54 | if the read or the save fails, the error is returned and nothing changes; when the store answers, it succeeds iff the read finds the flow; on success the stored flow is the one read, with refresh set, and every other row is unchanged |
| LoginFlowPersister.ForcedFrame | persistence/sql/persister_login.go:46-52 | forcing keeps the key set and every other row; it sets refresh on the caller's own flow and changes nothing when the flow is not found |
| LoginFlowPersister.ForcedIdempotent | persistence/sql/persister_login.go:44-54 | forcing twice gives the same table as forcing once |
| LoginFlowPersister.Persister.DeleteExpiredBatch | persistence/sql/persister_login.go:60-70 | one `DELETE ... LIMIT batch` pass either fails and changes nothing, or removes `min(batch, expired)` expired rows of any tenant and reports that count |
| LoginFlowPersister.Persister.DeleteExpiredLoginFlows | persistence/sql/persister_login.go:56-76 | removes only expired rows (of every tenant) and changes no remaining row; without a failure it runs exactly the passes of `Passes` and deletes their sum; the first failing pass ends it before the plan is complete, with exactly the rows of the passes before it deleted |
| LoginFlowPersister.PassesShape | persistence/sql/persister_login.go:57-74 | at least one pass runs; no pass deletes more than `batch` rows; every pass except the last deleted something; no more rows go than had expired |
| LoginFlowPersister.PassesBound | persistence/sql/persister_login.go:57-58 | with `batch > 0`, either one pass runs or `batch` times the number of passes stays within `limit`; all passes together delete at most `batch` times the number of passes |
| LoginFlowPersister.PassCountBound | persistence/sql/persister_login.go:57-58 | with `batch > 0`, at most `max(1, limit / batch)` passes run |
| LoginFlowPersister.PassesTotal | persistence/sql/persister_login.go:57-74 | with `batch > 0`, one invocation deletes at most `max(batch, limit)` rows |
| LoginFlowPersister.PassesStopEarly | persistence/sql/persister_login.go:57-74 | expired rows are left behind only if every pass was a full batch and one more batch would have overrun the limit |
| LoginFlowPersister.PassCountWhenStopped | persistence/sql/persister_login.go:57-74 | when expired rows are left behind, exactly `max(1, limit / batch)` passes ran |
| LoginFlowPersister.PassesExample | persistence/sql/persister_login.go:57-74 | 250 expired rows, limit 1000, batch 100: passes of 100, 100, 50 and 0, deleting 250 |
| GenericOIDC.Has | selfservice/strategy/oidc/provider_generic_oidc.go:61 | the membership test is true iff the string is in the list |
| GenericOIDC.Scopes | selfservice/strategy/oidc/provider_generic_oidc.go:60-63 | the configured scopes come first, in order and unchanged; `openid` is appended iff it is absent, so the result always contains it and nothing else is added |
| GenericOIDC.ScopesIdempotent | selfservice/strategy/oidc/provider_generic_oidc.go:60-63 | deriving the scopes twice gives the same list as deriving them once |
| GenericOIDC.Redir | selfservice/strategy/oidc/provider_generic_oidc.go:70 | the redirect URL starts with the public base URL and ends with the provider id |
| GenericOIDC.ConfigFromEndpoint | selfservice/strategy/oidc/provider_generic_oidc.go:59-72 | the client ID, client secret and endpoint are passed through verbatim; the scopes are the configured ones, plus `openid` iff it is absent; the redirect is `Redir(config, public)` |
| GenericOIDC.AuthCodeURLOptions | selfservice/strategy/oidc/provider_generic_oidc.go:85-92 | a forced request gets exactly the one `prompt=login` option, and any other request gets none |
| GenericOIDC.ForcedFlowPromptsLogin | selfservice/strategy/oidc/provider_generic_oidc.go:85-92 | a flow just forced in the store is still found by its tenant, and asks the provider for `prompt=login` |
| GenericOIDC.IDTokenOf | selfservice/strategy/oidc/provider_generic_oidc.go:113-116 | an ID token is present iff the `id_token` extra exists, is a string and is non-empty |
| GenericOIDC.VerifyAndDecodeClaims | selfservice/strategy/oidc/provider_generic_oidc.go:94-110 | claims come back iff verification for the given client ID succeeds and its token decodes, and they are the decoded ones; every failure is a bad request, and a verification failure carries the verifier's message |
| GenericOIDC.ProviderGenericOIDC.constructor | selfservice/strategy/oidc/provider_generic_oidc.go:32-42 | a new client keeps its configuration and public URL and has no cached provider |
| GenericOIDC.ProviderGenericOIDC.Provider | selfservice/strategy/oidc/provider_generic_oidc.go:48-57 | a cached provider is returned and never replaced, with no discovery request; otherwise exactly one request, for the configured issuer URL, is issued: success is cached and returned, failure is an internal error that leaves the cache empty, so a later call retries |
| GenericOIDC.ProviderGenericOIDC.OAuth2 | selfservice/strategy/oidc/provider_generic_oidc.go:74-83 | fails exactly when discovery fails, with discovery's error; otherwise returns the configuration built from the discovered endpoint |
| GenericOIDC.ProviderGenericOIDC.Claims | selfservice/strategy/oidc/provider_generic_oidc.go:112-124 | a missing, non-string or empty ID token is an `IDTokenMissing` error, before any discovery request; then a discovery failure is returned; then the result is verification for `config.clientID` followed by decoding |

## Left out

- SQL execution, the `pop` connection and transactions are not modelled. Each statement is a map operation, and `ForceLoginFlow`'s transaction is a single atomic method, so isolation levels and concurrent writers are not modelled.
- Error translation through `sqlcon.HandleError` and `herodot` message wrapping is not modelled. Store errors are the kinds `NotFound`, `Conflict` and `StoreUnavailable`, and provider errors keep only their kind and reason. Every store operation may find the store unavailable; when that happens is left open.
- Tenant resolution from the request context (`corp.ContextualizeNID`) is not modelled. The tenant is a parameter.
- The driver's generation of a missing id and its timestamp columns are not modelled. A create with an id already present is a conflict.
- LoginFlowPersister.Persister.DeleteExpiredLoginFlows: the 64-bit wrap-around of `limit -= batch` is not modelled, because integers here are unbounded.
- LoginFlowPersister.Persister.DeleteExpiredLoginFlows: a non-positive `batch` is modelled as a pass that deletes nothing (`LIMIT 0`). The driver's rejection of a negative `LIMIT` is not modelled.
- LoginFlowPersister.Persister.DeleteExpiredBatch: which expired rows one pass deletes is left open, and so is whether the store fails. The database's choice of rows is not modelled.
- The deadline and cancellation context of every operation is not modelled. Logging (`logrusx`) is not modelled either.
- `login.Flow.EnsureInternalContext`, `Configuration.Redir` and `isForced` are not part of this model's sources. The model gives them the behaviour their names and call sites imply:
  - an empty context becomes `{}`;
  - the redirect is the public URL followed by `/self-service/methods/oidc/callback/` and the provider id;
  - a request is forced when it is a login flow whose refresh flag is set.
- Network discovery (`gooidc.NewProvider`) is not modelled. Its outcome is a parameter of every operation that may issue a request.
- ID-token signature, issuer, audience and expiry checks are not modelled, and neither is claim decoding. Both are function parameters returning a `Result`.
- The `Config()` getter is not modelled separately. `config` is a constant field of the client.
- The unsynchronised check-then-set of the cached provider under concurrent callers is not modelled. The cache is modelled sequentially.
- Go slice aliasing is not modelled: `append` to the configured scope slice may write into its spare capacity. Scopes are values here, so the configured list is never changed.
