/**
 * The user directory of app.py: the module-level list of users, the
 * credential lookup used by login, and the decision logic of the
 * register and delete-user handlers.  The invariant it keeps is that no
 * two users share an email.
 */
module Users {
  import opened Options
  import opened Lists

  datatype User = User(userId: int, email: string, password: string, patientName: string)

  /** Rejection texts of the register handler, in the order it checks them. */
  const MissingFieldsMessage: string := "Email, password and patient_name are required."
  const InvalidEmailMessage: string := "Invalid email format."
  const ShortPasswordMessage: string := "Password must be at least 6 characters long."
  const EmailTakenMessage: string := "Email already registered."

  /** Shortest password the register handler accepts. */
  const MinPasswordLength: nat := 6

  function EmailOf(u: User): string
  {
    u.email
  }

  /** The directory invariant: emails are pairwise distinct. */
  ghost predicate EmailsDistinct(users: seq<User>)
  {
    DistinctBy(users, EmailOf)
  }

  /** Whether some user already has this email. */
  function EmailRegistered(users: seq<User>, email: string): (b: bool)
    ensures b <==> exists i :: 0 <= i < |users| && users[i].email == email
  {
    FirstIndex(users, (u: User) => u.email == email) < |users|
  }

  /**
   * Why the register handler turns a request away, or `None` when it
   * accepts it.  The checks run in order and the first that fails wins.
   */
  function RegisterRejection(users: seq<User>, email: string, password: string): (r: Option<string>)
    ensures r == None <==>
      email != [] && password != [] && '@' in email && |password| >= MinPasswordLength &&
      forall i :: 0 <= i < |users| ==> users[i].email != email
    ensures email == [] || password == [] ==> r == Some(MissingFieldsMessage)
    ensures email != [] && password != [] && '@' !in email ==> r == Some(InvalidEmailMessage)
    ensures email != [] && '@' in email && 0 < |password| < MinPasswordLength ==> r == Some(ShortPasswordMessage)
    ensures email != [] && '@' in email && |password| >= MinPasswordLength && EmailRegistered(users, email) ==>
      r == Some(EmailTakenMessage)
  {
    if email == [] || password == [] then Some(MissingFieldsMessage)
    else if '@' !in email then Some(InvalidEmailMessage)
    else if |password| < MinPasswordLength then Some(ShortPasswordMessage)
    else if EmailRegistered(users, email) then Some(EmailTakenMessage)
    else None
  }

  /** Outcome of the register handler. */
  datatype RegisterOutcome = Registered(userId: int) | Rejected(message: string)

  class UserDirectory {
    var users: seq<User>

    /** The directory starts empty. */
    constructor ()
      ensures users == []
      ensures EmailsDistinct(users)
    {
      users := [];
    }

    /** Position of the first user with these credentials, or `|users|`. */
    function CredentialsIndex(email: string, password: string): (k: nat)
      reads this
      ensures k <= |users|
      ensures k < |users| ==> users[k].email == email && users[k].password == password
      ensures forall j :: 0 <= j < k ==> !(users[j].email == email && users[j].password == password)
    {
      FirstIndex(users, (u: User) => u.email == email && u.password == password)
    }

    /** The first user whose email and password both match, if any. */
    function VerifyUserCredentials(email: string, password: string): (r: Option<User>)
      reads this
      ensures r == None <==> forall i :: 0 <= i < |users| ==> !(users[i].email == email && users[i].password == password)
      ensures r != None ==> r.value == users[CredentialsIndex(email, password)]
      ensures r != None ==> r.value.email == email && r.value.password == password
    {
      var k := CredentialsIndex(email, password);
      if k < |users| then Some(users[k]) else None
    }

    /**
     * Rejects the request with the first failing check's message and no
     * change; otherwise appends a user numbered one past the old length.
     */
    method Register(email: string, password: string, patientName: string) returns (outcome: RegisterOutcome)
      modifies this
      ensures RegisterRejection(old(users), email, password) != None ==>
        outcome == Rejected(RegisterRejection(old(users), email, password).value) && users == old(users)
      ensures RegisterRejection(old(users), email, password) == None ==>
        outcome == Registered(|old(users)| + 1) &&
        users == old(users) + [User(|old(users)| + 1, email, password, patientName)]
      ensures old(EmailsDistinct(users)) ==> EmailsDistinct(users)
    {
      var rejection := RegisterRejection(users, email, password);
      if rejection != None {
        return Rejected(rejection.value);
      }
      var userId := |users| + 1;
      var newUser := User(userId, email, password, patientName);
      if EmailsDistinct(users) {
        AppendKeepsDistinct(users, newUser, EmailOf);
      }
      users := users + [newUser];
      return Registered(userId);
    }

    /** Position of the first user carrying `userId`, or `|users|`. */
    function UserIndex(userId: int): (k: nat)
      reads this
      ensures k <= |users|
      ensures k < |users| ==> users[k].userId == userId
      ensures forall j :: 0 <= j < k ==> users[j].userId != userId
    {
      FirstIndex(users, (u: User) => u.userId == userId)
    }

    /**
     * Removes the first user carrying `userId` and returns that user's
     * email; returns `None` and changes nothing when no user has the id.
     */
    method DeleteUser(userId: int) returns (deletedEmail: Option<string>)
      modifies this
      ensures old(UserIndex(userId)) == |old(users)| ==> deletedEmail == None && users == old(users)
      ensures old(UserIndex(userId)) < |old(users)| ==>
        deletedEmail == Some(old(users)[old(UserIndex(userId))].email) &&
        users == RemoveAt(old(users), old(UserIndex(userId)))
      ensures deletedEmail == None <==> forall i :: 0 <= i < |old(users)| ==> old(users)[i].userId != userId
      ensures old(EmailsDistinct(users)) ==> EmailsDistinct(users)
    {
      var k := UserIndex(userId);
      if k == |users| {
        return None;
      }
      var email := users[k].email;
      if EmailsDistinct(users) {
        RemoveAtKeepsDistinct(users, k, EmailOf);
      }
      users := RemoveAt(users, k);
      return Some(email);
    }
  }

  /**
   * User ids are not unique either: register two users, delete user 1,
   * register a third, and both stored users carry id 2.
   */
  method UserIdReuseScenario(password: string, name: string) returns (ids: seq<int>)
    requires |password| >= MinPasswordLength
    ensures ids == [2, 2]
  {
    var directory := new UserDirectory();
    var r := directory.Register("a@x", password, name);
    r := directory.Register("b@x", password, name);
    var deleted := directory.DeleteUser(1);
    r := directory.Register("c@x", password, name);
    ids := [directory.users[0].userId, directory.users[1].userId];
  }
}
