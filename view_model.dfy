/**
 * The request orchestrator of the users list screen: `UsersListViewModel`.
 *
 * Every user action (fetch the list, remove a user, add a user) publishes
 * `loading`, checks connectivity, validates its input (add only), calls the
 * repository and publishes the settled outcome into a single slot.
 *
 * Each launched coroutine block is one atomic method here. What the
 * collaborators do during one action (the connectivity facts, what each
 * repository call returns or that it throws) is an `Environment` argument;
 * the email regex is an uninterpreted predicate fixed at construction.
 */
module ViewModels {
  import opened Models

  // ---------------------------------------------------------------------------
  // Messages published by the view-model
  // ---------------------------------------------------------------------------

  const NoInternetMessage := "No internet connection!"
  const RetrieveFailedMessage := "Unable to retrieve the users list!"
  const RemoveFailedMessage := "Unable to remove the user!"
  const AddFailedMessage := "Unable to add the user!"
  const RemovedMessage := "User removed successfully!"
  const AddedMessage := "User added successfully!"
  const InvalidIdMessage := "Please insert a valid user Id!"
  const InvalidNameMessage := "Please insert a valid user name!"
  const InvalidEmailMessage := "Please insert a valid user email!"

  // ---------------------------------------------------------------------------
  // Connectivity (`checkInternetConnection`)
  // ---------------------------------------------------------------------------

  /** The transports a network can report (`NetworkCapabilities.TRANSPORT_*`). */
  datatype Transport = Cellular | Wifi | Bluetooth | Ethernet | Vpn | WifiAware | Lowpan | Usb | Thread | Satellite

  /**
   * What the connectivity manager reports: whether there is an active
   * network, and the capabilities it returns for it (null, or the set of
   * transports the network has).
   */
  datatype Connectivity = Connectivity(activeNetwork: bool, capabilities: Option<set<Transport>>)

  /** The transports the view-model accepts as an internet connection. */
  const InternetTransports: set<Transport> := {Wifi, Cellular, Ethernet, Bluetooth}

  /** `checkInternetConnection`: two null checks and then a `when` over four transports. */
  function CheckInternetConnection(c: Connectivity): (connected: bool)
    ensures connected <==>
      c.activeNetwork && c.capabilities.Some? && c.capabilities.value * InternetTransports != {}
  {
    if !c.activeNetwork then false
    else match c.capabilities
      case None => false
      case Some(transports) =>
        if Wifi in transports then
          assert Wifi in transports * InternetTransports; true
        else if Cellular in transports then
          assert Cellular in transports * InternetTransports; true
        else if Ethernet in transports then
          assert Ethernet in transports * InternetTransports; true
        else if Bluetooth in transports then
          assert Bluetooth in transports * InternetTransports; true
        else
          assert transports * InternetTransports == {}; false
  }

  // ---------------------------------------------------------------------------
  // Input validation (`isBlank`, `isValidEmail`, `isValidUser`)
  // ---------------------------------------------------------------------------

  /**
   * Kotlin's `Char.isWhitespace` on the JVM: `Character.isWhitespace` or
   * `Character.isSpaceChar`, i.e. the ASCII controls TAB..CR and FS..US and
   * every space, line or paragraph separator.
   */
  predicate IsWhitespace(ch: char)
  {
    || '\t' <= ch <= '\r'
    || '\U{1C}' <= ch <= '\U{1F}'
    || ch == ' '
    || ch == '\U{A0}'
    || ch == '\U{1680}'
    || '\U{2000}' <= ch <= '\U{200A}'
    || ch == '\U{2028}'
    || ch == '\U{2029}'
    || ch == '\U{202F}'
    || ch == '\U{205F}'
    || ch == '\U{3000}'
  }

  /**
   * Kotlin's `CharSequence.isBlank`, as a scan from the front: the string
   * is blank iff it is empty or every character is whitespace.
   */
  function IsBlank(s: string): (blank: bool)
    ensures blank <==> forall i :: 0 <= i < |s| ==> IsWhitespace(s[i])
    ensures s == [] ==> blank
  {
    s == [] || (IsWhitespace(s[0]) && IsBlank(s[1..]))
  }

  /** `String.isValidEmail`: not blank and matched by the email pattern. */
  function IsValidEmail(email: string, emailPattern: string -> bool): (valid: bool)
    ensures valid <==> emailPattern(email) && exists i :: 0 <= i < |email| && !IsWhitespace(email[i])
    ensures valid ==> email != []
  {
    !IsBlank(email) && emailPattern(email)
  }

  /**
   * The message `isValidUser` publishes for `user`, or `None` when the user
   * passes. The checks run in a fixed order and the first failing one
   * decides the message.
   */
  function ValidationError(user: User, emailPattern: string -> bool): (error: Option<string>)
    ensures error.None? <==>
      !IsBlank(user.id) && !IsBlank(user.name) && IsValidEmail(user.email, emailPattern)
    ensures IsBlank(user.id) ==> error == Some(InvalidIdMessage)
    ensures !IsBlank(user.id) && IsBlank(user.name) ==> error == Some(InvalidNameMessage)
    ensures !IsBlank(user.id) && !IsBlank(user.name) && !IsValidEmail(user.email, emailPattern) ==>
      error == Some(InvalidEmailMessage)
  {
    if IsBlank(user.id) then Some(InvalidIdMessage)
    else if IsBlank(user.name) then Some(InvalidNameMessage)
    else if !IsValidEmail(user.email, emailPattern) then Some(InvalidEmailMessage)
    else None
  }

  // ---------------------------------------------------------------------------
  // Collaborators and actions
  // ---------------------------------------------------------------------------

  /** What a repository call does: it returns a value, or it throws an `Exception`. */
  datatype CallResult<T> = Returned(value: T) | Threw

  /** The `retrofit2.Response<Unit>` that add and remove return, reduced to its HTTP status code. */
  datatype Response = Response(code: int)

  /**
   * What the collaborators do during one action: the connectivity facts,
   * what `getUsers` does when the action calls it, and what `addUser` or
   * `removeUser` does when the action calls it.
   */
  datatype Environment = Environment(connectivity: Connectivity, getUsers: CallResult<seq<User>>, mutation: CallResult<Response>)

  /** A call the view-model makes on the repository. */
  datatype RepositoryCall = GetUsersCall | AddUserCall(user: User) | RemoveUserCall(userId: string)

  /** The three public operations of the view-model. */
  datatype UserAction = Refresh | Remove(userId: string) | Add(user: User)

  /** One action run against the collaborators' behaviour during it. */
  datatype Step = Step(action: UserAction, env: Environment)

  // ---------------------------------------------------------------------------
  // Reference definition of one action
  // ---------------------------------------------------------------------------

  /**
   * The value an action leaves in the slot: no connection wins over
   * everything, then (for add) the first validation failure, then a
   * thrown repository call, and otherwise success with the re-fetched list.
   */
  function Outcome(action: UserAction, env: Environment, emailPattern: string -> bool): (r: Result<seq<User>>)
    ensures r.status != LOADING
    ensures r.status == ERROR ==> r.data == None && r.message.Some?
    ensures r.status == SUCCESS ==>
      CheckInternetConnection(env.connectivity) && env.getUsers.Returned? && r.data == Some(env.getUsers.value)
  {
    if !CheckInternetConnection(env.connectivity) then Error(None, Some(NoInternetMessage))
    else match action
      case Refresh =>
        (match env.getUsers
         case Returned(users) => Success(users)
         case Threw => Error(None, Some(RetrieveFailedMessage)))
      case Remove(_) => MutationOutcome(env, RemovedMessage, RemoveFailedMessage)
      case Add(user) =>
        (match ValidationError(user, emailPattern)
         case Some(message) => Error(None, Some(message))
         case None => MutationOutcome(env, AddedMessage, AddFailedMessage))
  }

  /** A mutation followed by a re-fetch, inside one try block. */
  function MutationOutcome(env: Environment, done: string, failed: string): Result<seq<User>>
  {
    match (env.mutation, env.getUsers)
    case (Returned(_), Returned(users)) => Success(users, Some(done))
    case _ => Error(None, Some(failed))
  }

  /** The call an action makes on the repository first: its own operation. */
  function Requested(action: UserAction): RepositoryCall
  {
    match action
    case Refresh => GetUsersCall
    case Remove(userId) => RemoveUserCall(userId)
    case Add(user) => AddUserCall(user)
  }

  /**
   * The repository calls an action makes, in order: none without a
   * connection or for an invalid user; otherwise the action's own call,
   * followed (for a mutation that returned) by the re-fetch. `getUsers`
   * is only ever the last call.
   */
  function Calls(action: UserAction, env: Environment, emailPattern: string -> bool): (calls: seq<RepositoryCall>)
    ensures !CheckInternetConnection(env.connectivity) ==> calls == []
    ensures action.Add? && ValidationError(action.user, emailPattern).Some? ==> calls == []
    ensures |calls| <= 2
    ensures calls != [] ==> calls[0] == Requested(action)
    ensures |calls| == 2 <==> calls != [] && !action.Refresh? && env.mutation.Returned?
    ensures forall i :: 0 <= i < |calls| && calls[i] == GetUsersCall ==> i == |calls| - 1
  {
    if !CheckInternetConnection(env.connectivity) then []
    else match action
      case Refresh => [GetUsersCall]
      case Remove(userId) => [RemoveUserCall(userId)] + RefetchAfter(env)
      case Add(user) =>
        if ValidationError(user, emailPattern).Some? then [] else [AddUserCall(user)] + RefetchAfter(env)
  }

  /** The follow-up `getUsers` is reached only when the mutation did not throw. */
  function RefetchAfter(env: Environment): seq<RepositoryCall>
  {
    if env.mutation.Returned? then [GetUsersCall] else []
  }

  /** Every value a sequence of actions writes to the slot, in order. */
  function History(steps: seq<Step>, emailPattern: string -> bool): seq<Result<seq<User>>>
  {
    if steps == [] then []
    else
      var last := steps[|steps| - 1];
      History(steps[..|steps| - 1], emailPattern) + [Loading(None), Outcome(last.action, last.env, emailPattern)]
  }

  /** Every repository call a sequence of actions makes, in order. */
  function CallLog(steps: seq<Step>, emailPattern: string -> bool): seq<RepositoryCall>
  {
    if steps == [] then []
    else
      var last := steps[|steps| - 1];
      CallLog(steps[..|steps| - 1], emailPattern) + Calls(last.action, last.env, emailPattern)
  }

  // ---------------------------------------------------------------------------
  // Properties of one action
  // ---------------------------------------------------------------------------

  /** Without a connection every action ends in the same error and calls nothing. */
  lemma NoConnectionAborts(action: UserAction, env: Environment, emailPattern: string -> bool)
    requires !CheckInternetConnection(env.connectivity)
    ensures Outcome(action, env, emailPattern) == Error(None, Some(NoInternetMessage))
    ensures Calls(action, env, emailPattern) == []
  {
  }

  /** With a connection, fetching has exactly two outcomes, decided by the repository. */
  lemma GetUsersOutcomes(env: Environment, emailPattern: string -> bool)
    requires CheckInternetConnection(env.connectivity)
    ensures Calls(Refresh, env, emailPattern) == [GetUsersCall]
    ensures env.getUsers.Returned? ==> Outcome(Refresh, env, emailPattern) == Success(env.getUsers.value)
    ensures env.getUsers.Threw? <==> Outcome(Refresh, env, emailPattern) == Error(None, Some(RetrieveFailedMessage))
  {
  }

  /** With a connection, removal succeeds exactly when both the removal and the re-fetch return. */
  lemma RemoveUserOutcomes(userId: string, env: Environment, emailPattern: string -> bool)
    requires CheckInternetConnection(env.connectivity)
    ensures var r := Outcome(Remove(userId), env, emailPattern);
      && (r.status == SUCCESS <==> env.mutation.Returned? && env.getUsers.Returned?)
      && (r.status == SUCCESS ==> r == Success(env.getUsers.value, Some(RemovedMessage)))
      && (r.status != SUCCESS ==> r == Error(None, Some(RemoveFailedMessage)))
    ensures Calls(Remove(userId), env, emailPattern) ==
      if env.mutation.Returned? then [RemoveUserCall(userId), GetUsersCall] else [RemoveUserCall(userId)]
  {
  }

  /** With a connection, an invalid user is rejected with its first failure's message and nothing is called. */
  lemma AddUserRejected(user: User, env: Environment, emailPattern: string -> bool)
    requires CheckInternetConnection(env.connectivity)
    requires ValidationError(user, emailPattern).Some?
    ensures Outcome(Add(user), env, emailPattern) == Error(None, ValidationError(user, emailPattern))
    ensures Calls(Add(user), env, emailPattern) == []
  {
  }

  /** With a connection, a valid user is added exactly when both the addition and the re-fetch return. */
  lemma AddUserOutcomes(user: User, env: Environment, emailPattern: string -> bool)
    requires CheckInternetConnection(env.connectivity)
    requires ValidationError(user, emailPattern).None?
    ensures var r := Outcome(Add(user), env, emailPattern);
      && (r.status == SUCCESS <==> env.mutation.Returned? && env.getUsers.Returned?)
      && (r.status == SUCCESS ==> r == Success(env.getUsers.value, Some(AddedMessage)))
      && (r.status != SUCCESS ==> r == Error(None, Some(AddFailedMessage)))
    ensures Calls(Add(user), env, emailPattern) ==
      if env.mutation.Returned? then [AddUserCall(user), GetUsersCall] else [AddUserCall(user)]
  {
  }

  /** A successful action always ends with a `getUsers` call, and its list is what that call returned. */
  lemma SuccessIsRefetched(action: UserAction, env: Environment, emailPattern: string -> bool)
    requires Outcome(action, env, emailPattern).status == SUCCESS
    ensures var calls := Calls(action, env, emailPattern);
      |calls| > 0 && calls[|calls| - 1] == GetUsersCall
    ensures Outcome(action, env, emailPattern) == Success(env.getUsers.value, Outcome(action, env, emailPattern).message)
  {
  }

  /** The value add or remove returns is never inspected: an HTTP error response counts as success. */
  lemma ResponseNotInspected(action: UserAction, env: Environment, a: Response, b: Response, emailPattern: string -> bool)
    ensures Outcome(action, env.(mutation := Returned(a)), emailPattern) == Outcome(action, env.(mutation := Returned(b)), emailPattern)
    ensures Calls(action, env.(mutation := Returned(a)), emailPattern) == Calls(action, env.(mutation := Returned(b)), emailPattern)
  {
  }

  // ---------------------------------------------------------------------------
  // Properties of a sequence of actions
  // ---------------------------------------------------------------------------

  /** Each action writes exactly two values: `loading(null)`, then its outcome. */
  lemma {:induction false} HistoryShape(steps: seq<Step>, emailPattern: string -> bool)
    ensures |History(steps, emailPattern)| == 2 * |steps|
    ensures forall k :: 0 <= k < |steps| ==>
      && History(steps, emailPattern)[2 * k] == Loading(None)
      && History(steps, emailPattern)[2 * k + 1] == Outcome(steps[k].action, steps[k].env, emailPattern)
  {
    if steps != [] {
      var prefix := steps[..|steps| - 1];
      HistoryShape(prefix, emailPattern);
      forall k | 0 <= k < |prefix|
        ensures steps[k] == prefix[k]
      {
      }
    }
  }

  /**
   * In the history of any sequence of actions, every error carries no data,
   * every loading value is `loading(null)` without a message, and every
   * loading value is immediately overwritten by a settled one.
   */
  lemma {:induction false} HistoryWellFormed(steps: seq<Step>, emailPattern: string -> bool)
    ensures var h := History(steps, emailPattern);
      forall i :: 0 <= i < |h| ==>
        && (h[i].status == ERROR ==> h[i].data == None)
        && (h[i].status == LOADING ==> h[i] == Loading(None) && i + 1 < |h| && h[i + 1].status != LOADING)
  {
    var h := History(steps, emailPattern);
    HistoryShape(steps, emailPattern);
    forall i | 0 <= i < |h|
      ensures h[i].status == ERROR ==> h[i].data == None
      ensures h[i].status == LOADING ==> h[i] == Loading(None) && i + 1 < |h| && h[i + 1].status != LOADING
    {
      var k := i / 2;
      assert 0 <= k < |steps|;
      if i % 2 == 0 {
        assert i == 2 * k;
        assert h[i] == Loading(None);
        assert h[i + 1] == Outcome(steps[k].action, steps[k].env, emailPattern);
      } else {
        assert i == 2 * k + 1;
        assert h[i] == Outcome(steps[k].action, steps[k].env, emailPattern);
      }
    }
  }

  /** After any non-empty sequence of actions, the slot holds the last action's settled outcome. */
  lemma SettledAfterEveryAction(steps: seq<Step>, emailPattern: string -> bool)
    requires steps != []
    ensures var h := History(steps, emailPattern);
      |h| > 0 && h[|h| - 1].status != LOADING
  {
  }

  // ---------------------------------------------------------------------------
  // The view-model
  // ---------------------------------------------------------------------------

  /**
   * `UsersListViewModel`. `usersList` is the value of the `_usersList`
   * state flow. The ghost fields record every value written to it, every
   * repository call, and every action run so far.
   */
  class UsersListViewModel {
    var usersList: Result<seq<User>>
    ghost var published: seq<Result<seq<User>>>
    ghost var calls: seq<RepositoryCall>
    ghost var steps: seq<Step>
    /** `PatternsCompat.EMAIL_ADDRESS`, as an uninterpreted predicate. */
    const emailPattern: string -> bool

    /** The slot holds the last value written to it. */
    ghost predicate Consistent()
      reads this
    {
      |published| > 0 && usersList == published[|published| - 1]
    }

    /** The records agree with the actions run so far. */
    ghost predicate Logged()
      reads this
    {
      && Consistent()
      && published == [Loading(None)] + History(steps, emailPattern)
      && calls == CallLog(steps, emailPattern)
    }

    /** Between actions after construction: logged, and `init` has run its fetch. */
    ghost predicate Valid()
      reads this
    {
      Logged() && |steps| > 0
    }

    /** The slot starts as `loading(null)` and `init` runs `getUsers` at once. */
    constructor (emailPattern: string -> bool, env: Environment)
      ensures Valid()
      ensures this.emailPattern == emailPattern
      ensures steps == [Step(Refresh, env)]
      ensures usersList == Outcome(Refresh, env, emailPattern)
      ensures published == [Loading(None), Loading(None), usersList]
      ensures calls == Calls(Refresh, env, emailPattern)
    {
      this.emailPattern := emailPattern;
      usersList := Loading(None);
      published := [Loading(None)];
      calls := [];
      steps := [];
      new;
      GetUsers(env);
    }

    /** `_usersList.value = r`. */
    method SetValue(r: Result<seq<User>>)
      modifies this
      ensures Consistent()
      ensures usersList == r && published == old(published) + [r]
      ensures calls == old(calls) && steps == old(steps)
    {
      usersList := r;
      published := published + [r];
    }

    /** `getUsers` */
    method GetUsers(env: Environment)
      requires Logged()
      modifies this
      ensures Valid()
      ensures steps == old(steps) + [Step(Refresh, env)]
      ensures usersList == Outcome(Refresh, env, emailPattern)
      ensures published == old(published) + [Loading(None), usersList]
      ensures calls == old(calls) + Calls(Refresh, env, emailPattern)
    {
      var available := IsNetworkAvailable(env.connectivity);
      if available {
        calls := calls + [GetUsersCall];
        match env.getUsers
        case Returned(users) =>
          SetValue(Success(users));
        case Threw =>
          EmitError(Some(RetrieveFailedMessage));
      }
      Record(Step(Refresh, env));
    }

    /** `removeUser` */
    method RemoveUser(userId: string, env: Environment)
      requires Logged()
      modifies this
      ensures Valid()
      ensures steps == old(steps) + [Step(Remove(userId), env)]
      ensures usersList == Outcome(Remove(userId), env, emailPattern)
      ensures published == old(published) + [Loading(None), usersList]
      ensures calls == old(calls) + Calls(Remove(userId), env, emailPattern)
    {
      var available := IsNetworkAvailable(env.connectivity);
      if available {
        calls := calls + [RemoveUserCall(userId)];
        Mutate(env, RemovedMessage, RemoveFailedMessage);
      }
      Record(Step(Remove(userId), env));
    }

    /** `addUser` */
    method AddUser(user: User, env: Environment)
      requires Logged()
      modifies this
      ensures Valid()
      ensures steps == old(steps) + [Step(Add(user), env)]
      ensures usersList == Outcome(Add(user), env, emailPattern)
      ensures published == old(published) + [Loading(None), usersList]
      ensures calls == old(calls) + Calls(Add(user), env, emailPattern)
    {
      var available := IsNetworkAvailable(env.connectivity);
      if available {
        var valid := IsValidUser(user);
        if valid {
          calls := calls + [AddUserCall(user)];
          Mutate(env, AddedMessage, AddFailedMessage);
        }
      }
      Record(Step(Add(user), env));
    }

    /**
     * The try block shared by add and remove, after the mutating call has
     * been made: if it threw, or the re-fetch throws, publish `failed`;
     * otherwise publish the re-fetched list with `done`.
     */
    method Mutate(env: Environment, done: string, failed: string)
      requires Consistent()
      modifies this
      ensures Consistent()
      ensures usersList == MutationOutcome(env, done, failed)
      ensures published == old(published) + [usersList]
      ensures calls == old(calls) + RefetchAfter(env)
      ensures steps == old(steps)
    {
      match env.mutation
      case Threw =>
        EmitError(Some(failed));
      case Returned(_) =>
        calls := calls + [GetUsersCall];
        match env.getUsers
        case Returned(users) =>
          SetValue(Success(users, Some(done)));
        case Threw =>
          EmitError(Some(failed));
    }

    /** Closes an action: appends it to the ghost record of actions run. */
    method Record(step: Step)
      requires Consistent()
      requires published == [Loading(None)] + History(steps, emailPattern) +
        [Loading(None), Outcome(step.action, step.env, emailPattern)]
      requires calls == CallLog(steps, emailPattern) + Calls(step.action, step.env, emailPattern)
      modifies this
      ensures Valid()
      ensures steps == old(steps) + [step]
      ensures usersList == old(usersList) && published == old(published) && calls == old(calls)
    {
      ghost var before := steps;
      steps := steps + [step];
      assert steps[..|steps| - 1] == before;
      assert History(steps, emailPattern) ==
        History(before, emailPattern) + [Loading(None), Outcome(step.action, step.env, emailPattern)];
      assert CallLog(steps, emailPattern) == CallLog(before, emailPattern) + Calls(step.action, step.env, emailPattern);
    }

    /** `isValidUser`: publishes the first failure's message and answers whether there was none. */
    method IsValidUser(user: User) returns (valid: bool)
      requires Consistent()
      modifies this
      ensures Consistent()
      ensures valid <==> ValidationError(user, emailPattern).None?
      ensures published == old(published) + (if valid then [] else [Error(None, ValidationError(user, emailPattern))])
      ensures !valid ==> usersList == Error(None, ValidationError(user, emailPattern))
      ensures valid ==> usersList == old(usersList)
      ensures calls == old(calls) && steps == old(steps)
    {
      if IsBlank(user.id) {
        EmitError(Some(InvalidIdMessage));
        return false;
      } else if IsBlank(user.name) {
        EmitError(Some(InvalidNameMessage));
        return false;
      } else if !IsValidEmail(user.email, emailPattern) {
        EmitError(Some(InvalidEmailMessage));
        return false;
      } else {
        return true;
      }
    }

    /** `emitError`: publishes an error without data. */
    method EmitError(message: Option<string> := None)
      modifies this
      ensures Consistent()
      ensures usersList == Error(None, message) && published == old(published) + [usersList]
      ensures calls == old(calls) && steps == old(steps)
    {
      SetValue(Error(None, message));
    }

    /** `isNetworkAvailable`: publishes `loading(null)`, then the no-connection error if there is none. */
    method IsNetworkAvailable(connectivity: Connectivity) returns (available: bool)
      requires Consistent()
      modifies this
      ensures Consistent()
      ensures available == CheckInternetConnection(connectivity)
      ensures published == old(published) + [Loading(None)] +
        (if available then [] else [Error(None, Some(NoInternetMessage))])
      ensures calls == old(calls) && steps == old(steps)
    {
      SetValue(Loading(None));
      if !CheckInternetConnection(connectivity) {
        SetValue(Error(None, Some(NoInternetMessage)));
        available := false;
      } else {
        available := true;
      }
    }

    /** Between actions the slot is never `LOADING`, and an error in it carries no data. */
    lemma Settled()
      requires Valid()
      ensures usersList.status != LOADING
      ensures usersList.status == ERROR ==> usersList.data == None
    {
    }

    /**
     * In the log of every value written since construction, every error
     * carries no data, and every loading value after the initial one is
     * `loading(null)` and is overwritten at once by a settled value. (The
     * initial value is `loading(null)` too, and `init`'s fetch writes a
     * second one straight after it.)
     */
    lemma PublishedWellFormed()
      requires Valid()
      ensures published[0] == Loading(None) && published[1] == Loading(None)
      ensures forall i :: 0 <= i < |published| && published[i].status == ERROR ==> published[i].data == None
      ensures forall i :: 1 <= i < |published| && published[i].status == LOADING ==>
        published[i] == Loading(None) && i + 1 < |published| && published[i + 1].status != LOADING
    {
      var h := History(steps, emailPattern);
      HistoryShape(steps, emailPattern);
      HistoryWellFormed(steps, emailPattern);
      assert steps[0] == steps[0] && h[2 * 0] == Loading(None);
      forall i | 1 <= i < |published| && published[i].status == LOADING
        ensures published[i] == Loading(None) && i + 1 < |published| && published[i + 1].status != LOADING
      {
        assert published[i] == h[i - 1] && h[i - 1].status == LOADING;
        assert published[i + 1] == h[i];
      }
      forall i | 0 <= i < |published| && published[i].status == ERROR
        ensures published[i].data == None
      {
        assert i > 0 && published[i] == h[i - 1];
      }
    }
  }
}
