/**
 * The value types of the users list screen: the `User` record exchanged with
 * the REST API, and the tri-state `Result` wrapper the view-model publishes
 * to the UI (success, error or loading, each with optional data and an
 * optional message).
 */
module Models {

  /** Kotlin's nullable `T?`: `None` stands for `null`. */
  datatype Option<+T> = None | Some(value: T)

  /** A user as the API returns and accepts it; every field is a string. */
  datatype User = User(id: string, name: string, email: string, gender: string, status: string)

  /** The three states the UI renders: a list, a toast, a spinner. */
  datatype ResultStatus = SUCCESS | ERROR | LOADING

  /**
   * The `Result` data class. Being a Kotlin data class, two results are
   * equal exactly when their three components are; a Dafny datatype has the
   * same structural equality.
   */
  datatype Result<+T> = Result(status: ResultStatus, data: Option<T>, message: Option<string>)

  /** `Result.success`: the data is present; the message defaults to null. */
  function Success<T>(data: T, message: Option<string> := None): (r: Result<T>)
    ensures r.status == SUCCESS && r.data == Some(data) && r.message == message
  {
    Result(SUCCESS, Some(data), message)
  }

  /** `Result.error`: data may be absent; the message defaults to null. */
  function Error<T>(data: Option<T>, message: Option<string> := None): (r: Result<T>)
    ensures r.status == ERROR && r.data == data && r.message == message
  {
    Result(ERROR, data, message)
  }

  /** `Result.loading`: data may be absent; the message defaults to null. */
  function Loading<T>(data: Option<T>, message: Option<string> := None): (r: Result<T>)
    ensures r.status == LOADING && r.data == data && r.message == message
  {
    Result(LOADING, data, message)
  }

  /** Leaving out the message is the same as passing null, for all three factories. */
  lemma MessageDefaultsToNull<T>(d: T, od: Option<T>)
    ensures Success(d) == Success(d, None) && Success(d).message == None
    ensures Error(od) == Error(od, None) && Error(od).message == None
    ensures Loading(od) == Loading(od, None) && Loading(od).message == None
  {
  }

  /** Structural equality of results, which the view-model's unit tests compare with. */
  lemma ResultEqualityIsStructural<T>(a: Result<T>, b: Result<T>)
    ensures a == b <==> a.status == b.status && a.data == b.data && a.message == b.message
  {
  }

  /** Each factory is injective: equal results came from equal arguments. */
  lemma FactoriesInjective<T>(d1: T, d2: T, o1: Option<T>, o2: Option<T>, m1: Option<string>, m2: Option<string>)
    ensures Success(d1, m1) == Success(d2, m2) <==> d1 == d2 && m1 == m2
    ensures Error(o1, m1) == Error(o2, m2) <==> o1 == o2 && m1 == m2
    ensures Loading(o1, m1) == Loading(o2, m2) <==> o1 == o2 && m1 == m2
  {
  }

  /** For the same data and message the three factories give three different values. */
  lemma FactoriesPairwiseDistinct<T>(d: T, m: Option<string>)
    ensures Success(d, m) != Error(Some(d), m)
    ensures Success(d, m) != Loading(Some(d), m)
    ensures Error(Some(d), m) != Loading(Some(d), m)
  {
  }

  /** Every result is the one its status's factory builds from its own data and message. */
  lemma StatusDeterminesFactory<T>(r: Result<T>)
    ensures r.status == ERROR ==> r == Error(r.data, r.message)
    ensures r.status == LOADING ==> r == Loading(r.data, r.message)
    ensures r.status == SUCCESS && r.data.Some? ==> r == Success(r.data.value, r.message)
  {
  }
}
