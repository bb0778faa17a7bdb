/** The logged-in state kept in the session (SessionProfile): the one-time salt a
    login form is issued and the salted-hash login check. md5 and the random
    material for the salt are parameters. */
module Sessions {
  import opened Strings
  import opened PhpValues
  import opened Options
  import opened Exceptions
  import opened OperationResults
  import opened MySql
  import opened Users

  const InvalidPasswordCode := "Invalid password code"
  const UserNotFound := "User not found"
  const InvalidPassword := "Invalid password"

  /** What getUserInfoByEmail's record gives: a user, or none for a missing or
      empty record. */
  function FoundUser(record: Value): Option<UserData>
  {
    if IsEmpty(record) || !record.Arr? then None else Some(UserDataOf(record.entries))
  }

  /** The digest a login form must send: md5 of the stored password hash wrapped in
      the salt on both sides. */
  function ExpectedDigest(salt: string, u: UserData, md5: string -> string): string
  {
    md5(salt + ToText(u.userPassword) + salt)
  }

  /** TryAuthenticate's answer once the user has been looked up: the checks in
      order salt, user, digest. */
  function Verdict(lastSalt: string, user: Option<UserData>, passwordMD5: string, md5: string -> string): OperationResult
  {
    if IsEmptyText(lastSalt) then OperationResults.Failed(InvalidPasswordCode, Null)
    else if user.None? then OperationResults.Failed(UserNotFound, Null)
    else if passwordMD5 != ExpectedDigest(lastSalt, user.value, md5) then OperationResults.Failed(InvalidPassword, Null)
    else Success("", Null)
  }

  /** A login succeeds exactly when a salt was issued, the user exists and the
      digest matches; a success carries no message. */
  lemma VerdictSuccessIff(lastSalt: string, user: Option<UserData>, passwordMD5: string, md5: string -> string)
    ensures Verdict(lastSalt, user, passwordMD5, md5).success <==>
      !IsEmptyText(lastSalt) && user.Some? && passwordMD5 == ExpectedDigest(lastSalt, user.value, md5)
    ensures Verdict(lastSalt, user, passwordMD5, md5).success ==> Verdict(lastSalt, user, passwordMD5, md5) == Success("", Null)
  {
  }

  /** Which failure is reported: a missing salt hides whether the user exists, and
      a wrong digest is reported only for an existing user. */
  lemma VerdictFailureOrder(lastSalt: string, user: Option<UserData>, passwordMD5: string, md5: string -> string)
    ensures var v := Verdict(lastSalt, user, passwordMD5, md5);
      (v.message == InvalidPasswordCode <==> IsEmptyText(lastSalt))
      && (v.message == UserNotFound <==> !IsEmptyText(lastSalt) && user.None?)
      && (v.message == InvalidPassword <==>
            !IsEmptyText(lastSalt) && user.Some? && passwordMD5 != ExpectedDigest(lastSalt, user.value, md5))
  {
  }

  /** The salt is single-use: an attempt made after any completed attempt, without
      a new salt, fails whatever it sends. */
  lemma SaltIsSingleUse(user: Option<UserData>, passwordMD5: string, md5: string -> string)
    ensures Verdict("", user, passwordMD5, md5) == OperationResults.Failed(InvalidPasswordCode, Null)
  {
  }

  class SessionProfile {
    var authenticated: bool
    var loginPasswordSalt: string
    var userInfo: UserInfo?

    /** new SessionProfile(): not logged in, no salt, no user. */
    constructor()
      ensures !authenticated && loginPasswordSalt == "" && userInfo == null
    {
      authenticated := false;
      loginPasswordSalt := "";
      userInfo := null;
    }

    /** GenerateLoginRandomSalt, given the random material it hashes. */
    method GenerateLoginRandomSalt(randomMaterial: string, md5: string -> string)
      modifies this
      ensures loginPasswordSalt == md5(randomMaterial)
      ensures authenticated == old(authenticated) && userInfo == old(userInfo)
    {
      loginPasswordSalt := md5(randomMaterial);
    }

    /** TryAuthenticate, given md5. The user is looked up first, so a database
        exception leaves the session as it was; otherwise the salt is spent and the
        session is logged in exactly when the verdict is a success. */
    method TryAuthenticate(username: Value, passwordMD5: string, dataSource: MySqlDataSource, md5: string -> string)
      returns (r: Outcome<OperationResult>)
      modifies this, dataSource
      ensures var (s, o) := SqlSelect(old(dataSource.State()), dataSource.server, dataSource.config, ByEmailSql, [username]);
        dataSource.State() == s
        && (o.Throws? ==>
              r == Throws(o.ex)
              && authenticated == old(authenticated) && loginPasswordSalt == old(loginPasswordSalt) && userInfo == old(userInfo))
        && (o.Ok? ==> var user := FoundUser(RecordOf(o.value, Null));
              r == Ok(Verdict(old(loginPasswordSalt), user, passwordMD5, md5))
              && loginPasswordSalt == ""
              && authenticated == r.value.success
              && (authenticated ==> userInfo != null && fresh(userInfo) && userInfo.Data() == user.value)
              && (!authenticated ==> userInfo == null))
    {
      var found := UserInfo.GetUserInfoByEmail(username, dataSource);
      if found.Throws? {
        return Throws(found.ex);
      }
      var lastPasswordSalt := loginPasswordSalt;
      authenticated := false;
      userInfo := null;
      loginPasswordSalt := "";

      if IsEmptyText(lastPasswordSalt) {
        return Ok(OperationResults.Failed(InvalidPasswordCode, Null));
      }
      if found.value == null {
        return Ok(OperationResults.Failed(UserNotFound, Null));
      }
      var passwordExpectedMD5 := md5(lastPasswordSalt + ToText(found.value.userPassword) + lastPasswordSalt);
      if passwordMD5 != passwordExpectedMD5 {
        return Ok(OperationResults.Failed(InvalidPassword, Null));
      }
      authenticated := true;
      userInfo := found.value;
      return Ok(Success("", Null));
    }
  }
}
