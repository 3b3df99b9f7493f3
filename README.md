# Dashboard fetch fallback and view state

A Dafny model of the logic in the dashboard component of a Solana wallet
portfolio app (`src/app/component/dashboard/page.tsx`). It covers three parts:

- **Endpoint fallback** (`tryRPCEndpoints`). The RPC endpoint list holds an
  optional environment override and two fixed fallbacks. The rule skips falsy
  entries, runs an operation against each remaining endpoint in order, and
  returns the first success. When nothing succeeds it fails with
  "All RPC endpoints failed". The operation is an oracle from an endpoint
  string to an outcome (`Outcomes.Result`). `TryEndpoints` also returns the
  list of endpoints it invoked, so the model can say that later endpoints are
  never touched.
- **View-state lifecycle.** The component's state fields are the fields of the
  class `DashboardState.Dashboard`. Its handlers are methods: the initial
  `useState` values, `resetState`, `toggleBalance`, `fetchAllData` and the
  connect/disconnect effect. Each method is proved equal to a function of the
  old state (`Initial`, `Reset`, `Toggle`, `Fetch`, `OnConnection`), and the
  lemmas are stated about those functions. Each method also keeps the
  invariant `Consistent`: loading is false between steps, the only error ever
  shown is the fixed message, and balance and price are set or cleared together.
- **Mask** (`obfuscateValue`): one `*` per character of the input.

Remote calls (`getSolBalance`, `getTokenAccounts`, `getStakeAccounts`, the
transaction fetch) are oracles `string -> Result<T>`. Each one gives, for an
endpoint, what the call returns for the connected account. A failed outcome
covers both a failure to build the `Connection` and a failure of the call.
`getSolPriceInUSD` is a single `Result`, because the fallback rule does not
wrap it. `clusterApiUrl('mainnet-beta')` comes from a library, so it is a
parameter of `RpcEndpoints`. The fixed Helius URL is a parameter too; the
model depends only on its being non-empty.

A failed cycle does not clear the data already shown:

- A failed portfolio batch only sets the error message and clears loading.
  Every data field stays as it was (`FailedBatchKeepsData`).
- A failed transaction fetch after a successful batch leaves the new portfolio
  values in place next to the transactions of an earlier cycle
  (`FailedTransactionsKeepNewPortfolio`).

The invariant that balance and price are set or cleared together holds
because every successful balance or price outcome is modelled as a number.
The fields are declared `number | null` (`page.tsx:29-30`), and the library
calls that fill them are not part of this model. A call that resolved with
`null` would break it.

## Model

| member | source | states |
|---|---|---|
| Fallback.RpcEndpoints | src/app/component/dashboard/page.tsx:10-14 | the list has exactly three entries, in this order: the env override, the Helius URL, the `clusterApiUrl('mainnet-beta')` URL |
| Fallback.Present | src/app/component/dashboard/page.tsx:42 | the JavaScript truthiness test on an optional string: an entry passes iff it is neither `undefined` nor the empty string |
| Fallback.Presents | src/app/component/dashboard/page.tsx:41-42 | a string is in the result iff it is the value of some list entry that passes the truthiness test; none is empty |
| Fallback.PresentsAppend | src/app/component/dashboard/page.tsx:41-42 | the present entries of `a + b` are those of `a` followed by those of `b`, so list order is kept |
| Fallback.TryEndpoints | src/app/component/dashboard/page.tsx:40-53 | the loop's outcome is the reference outcome `FirstSuccess`, and the endpoints it invoked are the reference trace `Attempts` |
| Fallback.SucceedsIffSomePresentSucceeds | src/app/component/dashboard/page.tsx:41-52 | the rule succeeds iff some present endpoint succeeds; an Ok comes from a present endpoint; every failure is "All RPC endpoints failed" |
| Fallback.FirstSuccessWins | src/app/component/dashboard/page.tsx:41-46 | if endpoint i is the first present success, the rule returns its outcome, and only the present endpoints up to i are invoked |
| Fallback.AllFailExhausts | src/app/component/dashboard/page.tsx:41-52 | if every present endpoint fails (or none is present), every present endpoint is tried in order and then the rule fails with "All RPC endpoints failed" |
| Fallback.AttemptsArePresentPrefix | src/app/component/dashboard/page.tsx:41-49 | the tried endpoints are a prefix of the present ones (falsy entries never invoked); all but the last failed; an Ok is the last one's outcome |
| Fallback.FirstAttemptOnDeployedList | src/app/component/dashboard/page.tsx:10-14 | on the deployed list (a non-empty Helius URL), the first endpoint tried is the env override when it is set and non-empty, otherwise Helius |
| Fallback.SkipAbsentThenFallBack | src/app/component/dashboard/page.tsx:40-53 | for [absent, "A", "B"] where A fails and B succeeds: the outcome is B's, the tried endpoints are exactly A then B |
| Mask.Repeat | src/app/component/dashboard/page.tsx:65 | `c.repeat(n)` has length n and every character is c |
| Mask.Obfuscate | src/app/component/dashboard/page.tsx:65 | the mask has the input's length and every character is `*` |
| Mask.ObfuscateDependsOnlyOnLength | src/app/component/dashboard/page.tsx:65 | two masks are equal iff the inputs have equal length: the mask reveals only the length |
| Mask.ObfuscateIdempotent | src/app/component/dashboard/page.tsx:65 | masking a mask gives the same mask |
| DashboardState.Initial | src/app/component/dashboard/page.tsx:29-36 | the `useState` initial state holds no balance, price or error, has empty token, stake and transaction lists, is not loading, keeps the given `showBalance`, and is Consistent |
| DashboardState.BatchOk | src/app/component/dashboard/page.tsx:92-97 | `Promise.all` of the four portfolio calls resolves iff every one of them succeeded |
| DashboardState.Reset | src/app/component/dashboard/page.tsx:75-83 | after a reset the state equals the initial `useState` state, except that `showBalance` keeps its value; the result is Consistent |
| DashboardState.Toggle | src/app/component/dashboard/page.tsx:55-57 | `showBalance` is negated and every other field is unchanged; Consistent is preserved |
| DashboardState.Fetch | src/app/component/dashboard/page.tsx:85-112 | no key: nothing changes. Otherwise loading ends false; error is cleared iff all five fetches succeed, else it is the fixed message; on success all five data fields hold the fetched values; Consistent is preserved |
| DashboardState.OnConnection | src/app/component/dashboard/page.tsx:67-73 | not connected or no key gives the reset state; connected with a key gives exactly the state `Fetch` computes; Consistent is preserved |
| DashboardState.SuccessfulFetchReplacesAll | src/app/component/dashboard/page.tsx:99-105 | after a fully successful cycle the state does not depend on the state before it (except `showBalance`) |
| DashboardState.FailedBatchKeepsData | src/app/component/dashboard/page.tsx:91-108 | a failed portfolio batch only clears loading and sets the fixed error; the data fields stay as they were |
| DashboardState.FailedTransactionsKeepNewPortfolio | src/app/component/dashboard/page.tsx:99-108 | a successful batch followed by a failed transaction fetch keeps the new portfolio and the old transactions, and sets the fixed error |
| DashboardState.ToggleIsIndependent | src/app/component/dashboard/page.tsx:55-57 | toggling twice restores the state; toggling commutes with reset and with fetch |
| DashboardState.Dashboard.constructor | src/app/component/dashboard/page.tsx:29-36 | the mounted component holds the `useState` initial values, and the state is Consistent |
| DashboardState.Dashboard.ResetState | src/app/component/dashboard/page.tsx:75-83 | the new state is `Reset` of the old: the initial values with `showBalance` kept |
| DashboardState.Dashboard.ToggleBalance | src/app/component/dashboard/page.tsx:55-57 | may modify only `showBalance`, and negates it; the new state is `Toggle` of the old |
| DashboardState.Dashboard.FetchAllData | src/app/component/dashboard/page.tsx:85-112 | the new state is `Fetch` of the old state, given the fallback outcomes of the balance, token, stake and transaction fetches and the direct price outcome; Consistent is kept |
| DashboardState.Dashboard.OnConnectionChange | src/app/component/dashboard/page.tsx:67-73 | the new state is `OnConnection` of the old: a fetch when connected with a key, a reset otherwise |

## Left out

- The JSX render (`page.tsx:122-246`) is not modelled. This includes the explorer links, the signature slicing and the choice of mask inputs.
- The static chart data (`page.tsx:59-63`) and the chart widget are not modelled.
- `Connection` construction and the library calls `getSolBalance`, `getSolPriceInUSD`, `getTokenAccounts`, `getStakeAccounts` and `useFetchTransactions` are foreign code. Each is only an abstract success-or-failure outcome, fixed for the connected account.
- The `Promise.all` concurrency (`page.tsx:92`) is not modelled. All calls of the batch are made one after the other, and the batch's writes are skipped when any of them failed. The fallback calls have no effect on state, so the final state does not depend on their order.
- The effect at `page.tsx:67-73` and its duplicate at `page.tsx:114-120` both fire on one change. Their overlapping, interleaved fetch cycles are not modelled: every step runs to completion. For the same reason the intermediate state (loading true, error cleared) is visible only inside `FetchAllData`.
- Mask.Obfuscate: lengths are counts of Unicode characters, not the UTF-16 code units that JavaScript's `value.length` counts. The two agree on input inside the Basic Multilingual Plane; a character outside it gets one `*` instead of two.
- Fallback.TryEndpoints: each operation's outcome is fixed per endpoint string. A list that repeats an endpoint (an env override equal to one of the fixed URLs) tries it again on a fresh `Connection` in the source, and a transient failure could then succeed; in the model the repeated entry always gets the same answer as its first occurrence.
- `console.error` logging is not modelled. A failure on an endpoint is only skipped.
- Balances and prices are opaque `real` values. The floating-point display arithmetic and `toFixed` formatting are part of the render.
- `src/app/component/header/page.tsx` and `src/app/page/page.tsx` are UI composition with no logic, so they are not part of this model.
