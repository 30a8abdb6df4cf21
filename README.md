# User list view model, in Dafny

A model of `UserListViewModel`, the presentation controller of the user management app.
It owns two cells. `state` is `Loading` or `ShowList(users)`. `error` is an optional failure.
Its commands are `refresh`, `addUser`, `removeUser` and `hideError`. The first three each
launch a repository call (fetch, add or remove) in the view model's coroutine scope. The
continuation of a call writes `state` and `error` when the call completes. `hideError`
launches nothing; it only clears `error`.

- `model.dfy`: module `Model` holds `User` (id, name, email), `AddUser` (name, email), an
  opaque `Failure` and `Option`.
- `domain.dfy`: module `Domain` holds `UserListState`, the pending calls (`Op`), their
  replies (`Reply`) and the class `UserListViewModel`. The class has the fields `state`,
  `error` and `pending`, where `pending` is the list of launched calls that have not
  completed. `Step` is a pure one-event reference definition. `RemoveUser`, `AddUser`,
  `Refresh`, `HideError` and `Resolve` are proved to agree with it
  (`Current() == Step(old(Current()), event)`). The parts `Step` is built from specify the
  other methods: `LoadUsers` is proved against `StartFetch`, `CompleteFetch` and
  `CompleteMutation` against `Settle`, and the constructor against `Init`. `Run` folds `Step` over a
  trace of events. `Valid()` is the invariant that `Loading` is only shown while a fetch is
  pending.
- `properties.dfy`: module `Properties` holds lemmas about whole runs.
- `scenarios.dfy`: module `Scenarios` drives the class through the situations of the unit
  tests.

Concurrency appears only as a choice. `Resolve(i, reply)` completes the `i`-th pending
call, and the caller picks `i`, so calls may complete in any order. That keeps the
"last completion wins" behaviour. A fetch after an add or a remove is launched only by that
mutation's successful completion.

A successful completion does not clear the error. Only `hideError` does
(UserListViewModel.kt:50). A successful fetch leaves the error as it was (line 56).
`ErrorKeptUntilHidden` proves this.

## Model

| member | source | states |
|---|---|---|
| `Domain.Init` | app/src/main/java/academy/kt/usermanagementapp/domain/UserListViewModel.kt:18-26 | after construction: state is Loading, no error, exactly one pending call, and it is a fetch |
| `Domain.Step` | app/src/main/java/academy/kt/usermanagementapp/domain/UserListViewModel.kt:28-62 | every step keeps "Loading only while a fetch is pending"; only a refresh can make Loading appear; only a refresh or a completed fetch changes the state; the error changes only when it is hidden or a call fails, and then it becomes that failure |
| `Domain.Run` | app/src/main/java/academy/kt/usermanagementapp/domain/UserListViewModel.kt:28-62 | every run of commands and completions keeps "Loading only while a fetch is pending" |
| `Domain.UserListViewModel.constructor` | app/src/main/java/academy/kt/usermanagementapp/domain/UserListViewModel.kt:18-26 | the init block launches the first fetch: state Loading, error None, pending exactly [Fetch] |
| `Domain.UserListViewModel.LoadUsers` | app/src/main/java/academy/kt/usermanagementapp/domain/UserListViewModel.kt:53-54 | launching a fetch adds one pending Fetch and touches neither state nor error |
| `Domain.UserListViewModel.RemoveUser` | app/src/main/java/academy/kt/usermanagementapp/domain/UserListViewModel.kt:28-30 | only a pending Remove(id) is added: no fetch, state and error unchanged |
| `Domain.UserListViewModel.AddUser` | app/src/main/java/academy/kt/usermanagementapp/domain/UserListViewModel.kt:36-38 | only a pending Add(payload) is added: no fetch, state and error unchanged |
| `Domain.UserListViewModel.Refresh` | app/src/main/java/academy/kt/usermanagementapp/domain/UserListViewModel.kt:44-47 | state becomes Loading at once, error is unchanged, and exactly one fetch is added |
| `Domain.UserListViewModel.HideError` | app/src/main/java/academy/kt/usermanagementapp/domain/UserListViewModel.kt:49-51 | error becomes None; state and pending calls are unchanged |
| `Domain.UserListViewModel.CompleteFetch` | app/src/main/java/academy/kt/usermanagementapp/domain/UserListViewModel.kt:55-60 | success shows exactly the fetched users and leaves the error alone; failure shows an empty list and publishes the failure |
| `Domain.UserListViewModel.CompleteMutation` | app/src/main/java/academy/kt/usermanagementapp/domain/UserListViewModel.kt:30-40 | an add or remove that succeeds launches exactly one fetch; one that fails publishes the failure and launches nothing; in both cases the state is unchanged |
| `Domain.UserListViewModel.Resolve` | app/src/main/java/academy/kt/usermanagementapp/domain/UserListViewModel.kt:29-60 | completing the i-th pending call removes it and applies the matching continuation; no completion ever sets Loading |
| `Properties.NoLoadingWithoutRefresh` | app/src/main/java/academy/kt/usermanagementapp/domain/UserListViewModel.kt:44-58 | starting from a shown list, any run without a refresh never shows Loading, including the reloads after adds and removes |
| `Properties.ErrorKeptUntilHidden` | app/src/main/java/academy/kt/usermanagementapp/domain/UserListViewModel.kt:49-59 | once an error is published, an error (the same one or a later failure) stays published until hideError, whatever completes in between |
| `Properties.ErrorOriginatesInFailure` | app/src/main/java/academy/kt/usermanagementapp/domain/UserListViewModel.kt:32-59 | any error shown after a run was already there at the start, or is the failure of a call completed in that run |
| `Properties.ListChangesOnlyByRefreshOrFetch` | app/src/main/java/academy/kt/usermanagementapp/domain/UserListViewModel.kt:28-58 | a run with no refresh and no fetch completion leaves the state exactly as it was |
| `Properties.LastFetchWins` | app/src/main/java/academy/kt/usermanagementapp/domain/UserListViewModel.kt:53-60 | overlapping fetches are not de-duplicated: the last fetch to complete, when it succeeds, decides the list, whatever completed before it |
| `Properties.StepFetchCount` | app/src/main/java/academy/kt/usermanagementapp/domain/UserListViewModel.kt:28-54 | the number of pending fetches goes up by one exactly for a refresh or a successful add/remove, and down by one exactly for a completed fetch |
| `Properties.HideErrorIdempotent` | app/src/main/java/academy/kt/usermanagementapp/domain/UserListViewModel.kt:49-51 | hideError clears the error, and calling it twice is the same as calling it once |
| `Scenarios.InitialLoad` | app/src/test/java/academy/kt/usermanagementapp/domain/UserListViewModelTest.kt:36-56 | a new view model shows Loading with no error, then the fetched users with no error |
| `Scenarios.FailedLoad` | app/src/test/java/academy/kt/usermanagementapp/domain/UserListViewModelTest.kt:58-71 | a failed first fetch shows an empty list and the failure |
| `Scenarios.RefreshLoadsNewUsers` | app/src/test/java/academy/kt/usermanagementapp/domain/UserListViewModelTest.kt:73-96 | refresh shows Loading at once with no error, then the newly fetched users |
| `Scenarios.AddUserReloads` | app/src/test/java/academy/kt/usermanagementapp/domain/UserListViewModelTest.kt:98-144 | an add is in flight alone; its success launches the only reload; no observed state is Loading; the end shows the reloaded list with no error |
| `Scenarios.AddUserFailure` | app/src/test/java/academy/kt/usermanagementapp/domain/UserListViewModelTest.kt:146-162 | a failed add publishes the failure, keeps the list and reloads nothing |
| `Scenarios.RemoveUserReloads` | app/src/test/java/academy/kt/usermanagementapp/domain/UserListViewModelTest.kt:164-224 | a remove is in flight alone; its success launches the only reload; no observed state is Loading; the end shows the reloaded list with no error |
| `Scenarios.RemoveUserFailure` | app/src/test/java/academy/kt/usermanagementapp/domain/UserListViewModelTest.kt:190-206 | a failed remove publishes the failure, keeps the list and reloads nothing |

## Left out

- Hilt injection, the `ViewModel` base class and `viewModelScope`. These are framework wiring. The repository is not a field; each reply is supplied to `Resolve` instead.
- Coroutine scheduling and threads. Interleaving is only the choice of which pending call completes next. Cancellation on teardown belongs to the lifecycle owner and is not modelled.
- `StateFlow` observation and replay. Each cell is a plain field.
- The `UserRepository` implementation, HTTP, JSON and `ApiException`. A failure is an opaque `Failure` value. What a fetch returns after an add or a remove is a parameter, so the model cannot say that the reloaded list contains the added user.
- The tests' virtual-time delays and the fake repository's own user list. They describe the fake, not the view model.
- The tests' `showLoading` and `usersList` do not exist on the class. They are read as `state == Loading` and as the users inside `ShowList`. The test file under `ui/` repeats the `domain/` tests and is not modelled separately.
- User ids are Kotlin `Int` (32 bits) but are modelled as `int`. The view model only passes them through and never computes with them.
