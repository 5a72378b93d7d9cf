/**
 * The request handlers of password/app.py as they run: each writes entries
 * into the request's session and calls the store's operations in place. Every
 * handler is proved to produce exactly the Reply its AppSpec function gives;
 * the properties of those functions then carry over to the handlers.
 */
module App {
  import opened Auth
  import opened DbSpec
  import opened Db
  import opened AppSpec

  /** `request.session`: a dictionary the handlers write into. */
  class Session {
    var data: SessionData

    constructor ()
      ensures data == map[]
    {
      data := map[];
    }
  }

  method Register(store: Store, session: Session, pm: PasswordManager, username: string,
                  password: string, profile: Profile, salt: Salt) returns (outcome: Outcome)
    requires store.Valid()
    modifies store, session
    ensures store.Valid()
    ensures Reply(outcome, store.Value(), session.data)
         == RegisterReply(old(store.Value()), old(session.data), pm, username, password, profile, salt)
  {
    var existing := store.GetUser(username);
    if existing.Some? {
      session.data := session.data[ErrorKey := Text(UsernameTakenMessage)][ActiveTabKey := Text("register")];
      return UsernameTaken;
    }
    var strength := pm.evaluate(password, username);
    if !IsStrong(strength) {
      session.data := session.data[ErrorKey := Text(RegisterWeakMessage(strength.warning))][ActiveTabKey := Text("register")];
      return WeakPassword;
    }
    var hashed := pm.hash(password, salt);
    var _ := store.CreateUser(username, hashed, profile);
    session.data := session.data[SuccessKey := Text(RegisteredMessage)][ActiveTabKey := Text("login")];
    return Ok;
  }

  method Login(store: Store, session: Session, pm: PasswordManager, username: string, password: string)
    returns (outcome: Outcome)
    modifies session
    ensures Reply(outcome, store.Value(), session.data)
         == LoginReply(store.Value(), old(session.data), pm, username, password)
  {
    var user := store.GetUser(username);
    if user.None? {
      session.data := session.data[ErrorKey := Text(InvalidLoginMessage)][ActiveTabKey := Text("login")];
      return InvalidCredentials;
    }
    if pm.verify(password, user.value.hashedPassword) {
      session.data := session.data[LoggedInKey := Flag(true)][UsernameKey := Text(username)];
      var fullName := FullName(user.value.profile, username);
      session.data := session.data[SuccessKey := Text("Welcome back, " + fullName + "!")];
      return Ok;
    } else {
      session.data := session.data[ErrorKey := Text(InvalidLoginMessage)][ActiveTabKey := Text("login")];
      return InvalidCredentials;
    }
  }

  /** The six-digit `code` is the one the handler draws at random. */
  method ProcessForgotPassword(store: Store, session: Session, identifier: string, code: string, now: int)
    returns (outcome: Outcome)
    requires store.Valid()
    requires IsOtpCode(code)
    modifies store, session
    ensures store.Valid()
    ensures Reply(outcome, store.Value(), session.data)
         == ForgotPasswordReply(old(store.Value()), old(session.data), identifier, code, now)
  {
    var found := store.GetUserByEmailOrPhone(identifier);
    if found.None? || found.value.username == "" {
      session.data := session.data[ErrorKey := Text(AccountNotFoundMessage)][ActiveViewKey := Text("forgot")];
      return AccountNotFound;
    }
    var username := found.value.username;
    var _ := store.StoreOtp(username, code, now);
    session.data := session.data[SuccessKey := Text("A reset code has been sent. (SIMULATED OTP: " + code + ")")]
                                [ActiveViewKey := Text("verify_otp")]
                                [RecoveryUsernameKey := Text(username)];
    return Ok;
  }

  method ProcessVerifyOtp(store: Store, session: Session, username: string, code: string, now: int)
    returns (outcome: Outcome)
    requires store.Valid()
    modifies store, session
    ensures store.Valid()
    ensures Reply(outcome, store.Value(), session.data)
         == VerifyOtpReply(old(store.Value()), old(session.data), username, code, now)
  {
    var verified := store.VerifyOtp(username, code, now);
    if verified {
      session.data := session.data[ActiveViewKey := Text("reset_password")][RecoveryUsernameKey := Text(username)];
      return Ok;
    } else {
      session.data := session.data[ErrorKey := Text(InvalidOtpMessage)]
                                  [ActiveViewKey := Text("verify_otp")]
                                  [RecoveryUsernameKey := Text(username)];
      return InvalidOtp;
    }
  }

  method ProcessResetPassword(store: Store, session: Session, pm: PasswordManager, username: string,
                              password: string, confirmPassword: string, salt: Salt) returns (outcome: Outcome)
    requires store.Valid()
    modifies store, session
    ensures store.Valid()
    ensures Reply(outcome, store.Value(), session.data)
         == ResetPasswordReply(old(store.Value()), old(session.data), pm, username, password, confirmPassword, salt)
  {
    if password != confirmPassword {
      session.data := session.data[ErrorKey := Text(MismatchMessage)]
                                  [ActiveViewKey := Text("reset_password")]
                                  [RecoveryUsernameKey := Text(username)];
      return Mismatch;
    }
    var strength := pm.evaluate(password, username);
    if !IsStrong(strength) {
      session.data := session.data[ErrorKey := Text(ResetWeakMessage(strength.warning))]
                                  [ActiveViewKey := Text("reset_password")]
                                  [RecoveryUsernameKey := Text(username)];
      return WeakPassword;
    }
    var hashed := pm.hash(password, salt);
    var _ := store.UpdatePassword(username, hashed);
    session.data := session.data[SuccessKey := Text(PasswordSetMessage)][ActiveTabKey := Text("login")];
    return Ok;
  }

  /** `logout`: clears the whole session and leaves the store alone. */
  method Logout(session: Session)
    modifies session
    ensures session.data == map[]
  {
    session.data := map[];
  }
}
