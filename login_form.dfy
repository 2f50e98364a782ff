/**
 * The sign-in decision of src/components/banking/login-form.tsx.
 *
 * The form keeps the typed username and password and a count of failed attempts; after
 * three failures every submission is refused. The simulated 1.5 s authentication delay is
 * taken as immediate, and the toast shown to the user is the returned outcome.
 */
module LoginForm {

  datatype Credentials = Credentials(username: string, password: string)

  /** What one submission shows: the lock, the missing-fields notice, a sign-in, or a refusal. */
  datatype SubmitOutcome =
    | Locked
    | MissingFields
    | LoggedIn(credentials: Credentials)
    | Rejected(remainingAttempts: int)

  const MaxAttempts: nat := 3
  const DemoUsername: string := "etec"
  const DemoPassword: string := "123456"

  /**
   * One submission from a given attempt count: the outcome and the new count. A locked
   * form and missing fields leave the count alone; only wrong credentials raise it.
   */
  function Submit(loginAttempts: nat, username: string, password: string): (r: (SubmitOutcome, nat))
    ensures loginAttempts >= MaxAttempts ==> r == (Locked, loginAttempts)
    ensures loginAttempts < MaxAttempts && (username == "" || password == "") ==> r == (MissingFields, loginAttempts)
    ensures r.0.LoggedIn? <==>
      loginAttempts < MaxAttempts && username == DemoUsername && password == DemoPassword
    ensures r.0.LoggedIn? ==> r.0.credentials == Credentials(username, password) && r.1 == loginAttempts
    ensures r.0.Rejected? <==>
      loginAttempts < MaxAttempts && username != "" && password != ""
      && (username != DemoUsername || password != DemoPassword)
    ensures r.0.Rejected? ==> r.1 == loginAttempts + 1 && r.0.remainingAttempts == MaxAttempts - r.1
    ensures !r.0.Rejected? ==> r.1 == loginAttempts
  {
    if loginAttempts >= MaxAttempts then
      (Locked, loginAttempts)
    else if username == "" || password == "" then
      (MissingFields, loginAttempts)
    else if username == DemoUsername && password == DemoPassword then
      (LoggedIn(Credentials(username, password)), loginAttempts)
    else
      (Rejected(MaxAttempts - (loginAttempts + 1)), loginAttempts + 1)
  }

  /** A run of submissions from a given count: the outcomes in order and the final count. */
  function Replay(loginAttempts: nat, submissions: seq<Credentials>): (seq<SubmitOutcome>, nat)
    decreases submissions
  {
    if submissions == [] then ([], loginAttempts)
    else
      var (first, next) := Submit(loginAttempts, submissions[0].username, submissions[0].password);
      var (rest, last) := Replay(next, submissions[1..]);
      ([first] + rest, last)
  }

  function CountRejected(outcomes: seq<SubmitOutcome>): nat
  {
    if outcomes == [] then 0
    else (if outcomes[0].Rejected? then 1 else 0) + CountRejected(outcomes[1..])
  }

  /**
   * Over any run the count never goes down, rises by one per refusal, and stops at three:
   * a form that starts below the limit refuses at most `3 - start` times.
   */
  lemma {:induction false} ReplayCountsRefusals(loginAttempts: nat, submissions: seq<Credentials>)
    ensures var (outcomes, last) := Replay(loginAttempts, submissions);
      && |outcomes| == |submissions|
      && last == loginAttempts + CountRejected(outcomes)
      && (loginAttempts <= MaxAttempts ==> last <= MaxAttempts)
    decreases submissions
  {
    if submissions != [] {
      var (first, next) := Submit(loginAttempts, submissions[0].username, submissions[0].password);
      ReplayCountsRefusals(next, submissions[1..]);
    }
  }

  /** Once the limit is reached, every later submission is refused as locked, even the right password. */
  lemma {:induction false} LockoutIsPermanent(loginAttempts: nat, submissions: seq<Credentials>)
    requires loginAttempts >= MaxAttempts
    ensures var (outcomes, last) := Replay(loginAttempts, submissions);
      last == loginAttempts && forall o :: o in outcomes ==> o == Locked
    decreases submissions
  {
    if submissions != [] {
      LockoutIsPermanent(loginAttempts, submissions[1..]);
    }
  }

  class LoginForm {
    var username: string
    var password: string
    var isLoading: bool
    var loginAttempts: nat

    constructor ()
      ensures username == "" && password == "" && !isLoading && loginAttempts == 0
    {
      username := "";
      password := "";
      isLoading := false;
      loginAttempts := 0;
    }

    /**
     * `handleSubmit`: decides the submission from the current fields and attempt count.
     * A `LoggedIn` outcome carries the credentials handed to `onLogin`.
     */
    method HandleSubmit() returns (outcome: SubmitOutcome)
      modifies this
      ensures (outcome, loginAttempts) == Submit(old(loginAttempts), old(username), old(password))
      ensures username == old(username) && password == old(password)
      ensures isLoading == (if outcome.Locked? || outcome.MissingFields? then old(isLoading) else false)
    {
      if loginAttempts >= MaxAttempts {
        return Locked;
      }
      if username == "" || password == "" {
        return MissingFields;
      }
      isLoading := true;
      if username == DemoUsername && password == DemoPassword {
        outcome := LoggedIn(Credentials(username, password));
      } else {
        outcome := Rejected(MaxAttempts - (loginAttempts + 1));
        loginAttempts := loginAttempts + 1;
      }
      isLoading := false;
    }
  }
}
