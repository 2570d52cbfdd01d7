# UsersListViewModel: the request orchestrator of a users list screen

This project models the view-model of a small Android app. The app lists,
adds and removes users through a REST API. The view-model holds one
observable slot, `_usersList`. The slot carries a tri-state `Result`:
success, error or loading, each with optional data and an optional message.
Every user action runs the same steps:

1. publish `loading(null)`;
2. check connectivity, and publish "No internet connection!" if there is none;
3. for an add, validate the user: blank id, then blank name, then invalid email;
4. call the repository;
5. publish the re-fetched list with a confirmation, or an error message
   specific to the operation.

Files:

- `models.dfy` (module `Models`): `User`, `ResultStatus`, `Result` and the
  factories `Success`, `Error` and `Loading`. The message defaults to null
  (`None`). Kotlin's nullable types are modelled as `Option`.
- `view_model.dfy` (module `ViewModels`) has:
  - the connectivity check;
  - Kotlin's `isBlank`, with the JVM whitespace set written out;
  - email and user validation;
  - `Outcome`/`Calls`, a reference definition of what one action leaves in the slot and which repository calls it makes;
  - `History`/`CallLog`, the same for a sequence of actions;
  - the class `UsersListViewModel`, whose methods follow the Kotlin code step by step.

Each launched coroutine block is one atomic method. The collaborators are
inputs. Each action takes an `Environment` with three parts:

- the connectivity facts: is there an active network, and which capabilities (or null) it reports;
- what `getUsers` does when the action calls it: returns a list, or throws;
- what `addUser`/`removeUser` does when the action calls it: returns a `Response`, or throws.

The email regex `PatternsCompat.EMAIL_ADDRESS` is an uninterpreted predicate
`emailPattern`, fixed when the view-model is constructed. The class has three
ghost fields:

- `published`: every value written to the slot;
- `calls`: every repository call made;
- `steps`: every action run.

`Logged()` ties these to `History` and `CallLog`. `Valid()` adds that at
least one action has run, which holds from construction on. So the
imperative methods are proved against the reference definition.
`PublishedWellFormed` carries the session lemmas over to the object's own log
in every valid state:

- every published error has no data;
- every loading value after the initial one is `loading(null)` and is overwritten at once by a settled value.

The initial `loading(null)` is the one exception. `init`'s fetch writes a
second `loading(null)` straight after it.

Some behaviour follows from the code and is not spelled out elsewhere:

- Every action writes exactly two values: `loading(null)` and then a settled outcome.
- Only a WIFI, CELLULAR, ETHERNET or BLUETOOTH transport counts as a connection. A VPN-only or USB-only network is reported as offline.
- The `Response` that add and remove return is never inspected. Retrofit does not throw on an HTTP error status for a `Response<Unit>` return type, so a 4xx or 5xx answer to a delete or create is reported as success (`ResponseNotInspected`).

## Model

| member | source | states |
|---|---|---|
| `Models.Success` | app/src/main/java/com/cdimoiu/sliide/models/Result.kt:5-6 | status SUCCESS, data present and equal to the argument, message as given (null by default) |
| `Models.Error` | app/src/main/java/com/cdimoiu/sliide/models/Result.kt:8-9 | status ERROR, data and message as given (message null by default) |
| `Models.Loading` | app/src/main/java/com/cdimoiu/sliide/models/Result.kt:11-12 | status LOADING, data and message as given (message null by default) |
| `Models.MessageDefaultsToNull` | app/src/main/java/com/cdimoiu/sliide/models/Result.kt:5-11 | omitting the message in any factory is the same as passing null |
| `Models.ResultEqualityIsStructural` | app/src/main/java/com/cdimoiu/sliide/models/Result.kt:3 | two results are equal iff their status, data and message are equal |
| `Models.FactoriesInjective` | app/src/main/java/com/cdimoiu/sliide/models/Result.kt:3-12 | each factory yields equal results exactly for equal data and message |
| `Models.FactoriesPairwiseDistinct` | app/src/main/java/com/cdimoiu/sliide/models/Result.kt:3-12 | for the same data and message, success, error and loading are three different values |
| `Models.StatusDeterminesFactory` | app/src/main/java/com/cdimoiu/sliide/models/Result.kt:3-12 | every error or loading result, and every success result that has data, equals the factory of its status applied to its own data and message |
| `ViewModels.CheckInternetConnection` | app/src/main/java/com/cdimoiu/sliide/viewmodels/UsersListViewModel.kt:107-118 | connected iff there is an active network, its capabilities are non-null, and they include one of WIFI, CELLULAR, ETHERNET, BLUETOOTH |
| `ViewModels.IsBlank` | app/src/main/java/com/cdimoiu/sliide/viewmodels/UsersListViewModel.kt:77-81 | Kotlin's `isBlank`, computed by a scan from the front: blank iff every character is JVM whitespace; the empty string is blank (also used at line 121) |
| `ViewModels.IsValidEmail` | app/src/main/java/com/cdimoiu/sliide/viewmodels/UsersListViewModel.kt:120-121 | valid iff the pattern matches and the email has a non-whitespace character; a valid email is non-empty |
| `ViewModels.ValidationError` | app/src/main/java/com/cdimoiu/sliide/viewmodels/UsersListViewModel.kt:75-91 | no error iff id and name are not blank and the email is valid; otherwise the message of the first failing check in the order id, name, email |
| `ViewModels.Outcome` | app/src/main/java/com/cdimoiu/sliide/viewmodels/UsersListViewModel.kt:29-73 | the value an action leaves in the slot: never LOADING; an error has no data and has a message; a success needs a connection and carries exactly the list `getUsers` returned |
| `ViewModels.Calls` | app/src/main/java/com/cdimoiu/sliide/viewmodels/UsersListViewModel.kt:29-73 | the repository calls of one action: none without a connection or for an invalid user; at most two; the first is the action's own call; a second (the re-fetch) iff the action mutates and the mutation returned; `getUsers` only ever comes last |
| `ViewModels.NoConnectionAborts` | app/src/main/java/com/cdimoiu/sliide/viewmodels/UsersListViewModel.kt:97-105 | without a connection every action ends in `error(null, "No internet connection!")` and makes no repository call |
| `ViewModels.GetUsersOutcomes` | app/src/main/java/com/cdimoiu/sliide/viewmodels/UsersListViewModel.kt:29-39 | with a connection, fetching calls `getUsers` once: `success(list, null)` when it returns `list`, and "Unable to retrieve the users list!" iff it throws |
| `ViewModels.RemoveUserOutcomes` | app/src/main/java/com/cdimoiu/sliide/viewmodels/UsersListViewModel.kt:41-55 | with a connection, removal succeeds iff the removal and the re-fetch both return; success carries the re-fetched list and "User removed successfully!", and failure is "Unable to remove the user!"; the re-fetch is called iff the removal returned |
| `ViewModels.AddUserRejected` | app/src/main/java/com/cdimoiu/sliide/viewmodels/UsersListViewModel.kt:57-60 | with a connection, an invalid user ends in an error with the first failing check's message, and no repository call is made |
| `ViewModels.AddUserOutcomes` | app/src/main/java/com/cdimoiu/sliide/viewmodels/UsersListViewModel.kt:57-73 | with a connection, a valid user is added iff the addition and the re-fetch both return; success carries the re-fetched list and "User added successfully!", and failure is "Unable to add the user!" |
| `ViewModels.SuccessIsRefetched` | app/src/main/java/com/cdimoiu/sliide/viewmodels/UsersListViewModel.kt:46-49 | a successful action's last repository call is `getUsers`, and its data equals what that call returned |
| `ViewModels.ResponseNotInspected` | app/src/main/java/com/cdimoiu/sliide/viewmodels/UsersListViewModel.kt:45 | the outcome and the calls of an action do not depend on the response value of add or remove |
| `ViewModels.HistoryShape` | app/src/main/java/com/cdimoiu/sliide/viewmodels/UsersListViewModel.kt:97-98 | n actions write 2n values; the k-th action writes `loading(null)` and then its outcome |
| `ViewModels.HistoryWellFormed` | app/src/main/java/com/cdimoiu/sliide/viewmodels/UsersListViewModel.kt:93-95 | in any history, every error has no data, and every loading value is `loading(null)` and is followed at once by a settled value |
| `ViewModels.SettledAfterEveryAction` | app/src/main/java/com/cdimoiu/sliide/viewmodels/UsersListViewModel.kt:29-73 | after any non-empty sequence of actions, the last written value is not LOADING |
| `ViewModels.UsersListViewModel.constructor` | app/src/main/java/com/cdimoiu/sliide/viewmodels/UsersListViewModel.kt:22-27 | the slot starts as `loading(null)`, then one `getUsers` runs; the state afterwards is exactly that fetch's outcome |
| `ViewModels.UsersListViewModel.GetUsers` | app/src/main/java/com/cdimoiu/sliide/viewmodels/UsersListViewModel.kt:29-39 | writes `loading(null)` and then `Outcome(Refresh)`; appends `Calls(Refresh)`; keeps `Valid()` |
| `ViewModels.UsersListViewModel.RemoveUser` | app/src/main/java/com/cdimoiu/sliide/viewmodels/UsersListViewModel.kt:41-55 | writes `loading(null)` and then `Outcome(Remove(id))`; appends `Calls(Remove(id))`; keeps `Valid()` |
| `ViewModels.UsersListViewModel.AddUser` | app/src/main/java/com/cdimoiu/sliide/viewmodels/UsersListViewModel.kt:57-73 | writes `loading(null)` and then `Outcome(Add(user))`; appends `Calls(Add(user))`; keeps `Valid()` |
| `ViewModels.UsersListViewModel.Mutate` | app/src/main/java/com/cdimoiu/sliide/viewmodels/UsersListViewModel.kt:44-52 | the shared try block: a throw from the mutation or the re-fetch publishes the failure message; otherwise the re-fetched list is published with the confirmation |
| `ViewModels.UsersListViewModel.IsValidUser` | app/src/main/java/com/cdimoiu/sliide/viewmodels/UsersListViewModel.kt:75-91 | answers true iff there is no validation error; on false, writes exactly one error carrying the first failure's message |
| `ViewModels.UsersListViewModel.EmitError` | app/src/main/java/com/cdimoiu/sliide/viewmodels/UsersListViewModel.kt:93-95 | writes `error(null, message)`, with the message null by default |
| `ViewModels.UsersListViewModel.IsNetworkAvailable` | app/src/main/java/com/cdimoiu/sliide/viewmodels/UsersListViewModel.kt:97-105 | writes `loading(null)`; if not connected, then also writes `error(null, "No internet connection!")`; answers `CheckInternetConnection` |
| `ViewModels.UsersListViewModel.Settled` | app/src/main/java/com/cdimoiu/sliide/viewmodels/UsersListViewModel.kt:29-73 | in every valid state (from construction on), the slot is not LOADING, and an error in it carries no data |
| `ViewModels.UsersListViewModel.PublishedWellFormed` | app/src/main/java/com/cdimoiu/sliide/viewmodels/UsersListViewModel.kt:22-27 | in the object's log of writes, every error has no data; the first two values are `loading(null)`; every loading value after the first is `loading(null)` followed at once by a settled value |

## Left out

- Models.StatusDeterminesFactory: the model takes the data type `T` as non-null, so `Success` always wraps present data, and a SUCCESS result without data is not rebuilt by any factory. Kotlin's `success` also accepts a nullable `T`. The view-model only uses `Result<List<User>>`, whose success data is never null.

- Coroutines and `MutableStateFlow`: each launched block is one atomic method. Interleaving of overlapping actions, cancellation with the screen's lifetime, and StateFlow's conflation of equal consecutive values are not modelled. `published` records writes, not emissions.
- `ConnectivityManager` and `NetworkCapabilities` are Android system services. They are an input: active network present, and the capabilities reported for it (null, or a set of transports). `activeNetwork` and `getNetworkCapabilities` are read at one instant.
- `PatternsCompat.EMAIL_ADDRESS` is a foreign regex. It is the uninterpreted predicate `emailPattern`.
- `UserDataRepository` and `UserDataApi` are Retrofit forwarding and HTTP. Each call is an oracle outcome: the value it returns, or that it throws an `Exception`. Throwables that are not `Exception`s escape the view-model's `catch` and are not modelled. The HTTP response is reduced to its status code.
- The `User` class's own source file is not part of this model. Its shape comes from its uses: five string fields. The gender and status enums of the UI are plain strings here, as in the record.
- `NetworkModule` and `AppModule` (dependency injection, OkHttp configuration) are not part of this model.
- `UsersListFragment`, `UsersAdapter`, `SplashscreenFragment` and `MainActivity` are UI rendering, dialogs, navigation and a splash delay. They are not part of this model.
- Kotlin's `Char.isWhitespace` is written out for the JVM character classes involved: TAB to CR, FS to US, and the space, line and paragraph separators of Unicode. No other Unicode tables are modelled.
