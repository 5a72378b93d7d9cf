/**
 * The store of password/db.py as the program runs it: one mutable mapping from
 * username to record, with the insertion order of its keys. Every mutator is
 * proved to leave the store exactly as the matching DbSpec function says; the
 * file loading and saving around each operation are not part of this model.
 */
module Db {
  import opened Wrappers
  import opened DbSpec

  /** The pair `get_user_by_email_or_phone` returns when it finds someone. */
  datatype Match = Match(username: string, record: Record)

  class Store {
    var users: map<string, Record>
    var order: seq<string>

    ghost predicate Valid()
      reads this
    {
      Wf(DbState(users, order))
    }

    /** The store as a value, for stating what each operation does to it. */
    function Value(): DbState
      reads this
    {
      DbState(users, order)
    }

    /** A store with no users, as a missing database file loads. */
    constructor ()
      ensures Valid() && Value() == Empty()
    {
      users := map[];
      order := [];
    }

    /** `get_user`: the record under the username, if there is one. */
    method GetUser(username: string) returns (r: Option<Record>)
      ensures r.Some? <==> username in users
      ensures r.Some? ==> r.value == users[username]
    {
      if username in users {
        r := Some(users[username]);
      } else {
        r := None;
      }
    }

    /**
     * `get_user_by_email_or_phone`: scans the keys in insertion order and returns
     * the first user whose email or phone equals the identifier.
     */
    method GetUserByEmailOrPhone(identifier: string) returns (r: Option<Match>)
      requires Valid()
      ensures r.None? <==> forall u :: u in users ==> !HasContact(users[u], identifier)
      ensures r.Some? ==> r.value.username in users && r.value.record == users[r.value.username]
      ensures r.Some? ==> HasContact(r.value.record, identifier)
      ensures r.Some? ==> forall i, j :: 0 <= i < j < |order| && order[j] == r.value.username ==>
                            !HasContact(users[order[i]], identifier)
      ensures r.None? <==> FindByContact(Value(), identifier).None?
      ensures r.Some? ==> FindByContact(Value(), identifier) == Some(r.value.username)
    {
      var i := 0;
      while i < |order|
        invariant 0 <= i <= |order|
        invariant forall j :: 0 <= j < i ==> !HasContact(users[order[j]], identifier)
      {
        var username := order[i];
        var data := users[username];
        if data.profile.email == identifier || data.profile.phone == identifier {
          return Some(Match(username, data));
        }
        i := i + 1;
      }
      return None;
    }

    /** `create_user`. */
    method CreateUser(username: string, hashedPassword: string, profile: Profile) returns (ok: bool)
      requires Valid()
      modifies this
      ensures Valid()
      ensures Update(ok, Value()) == DbSpec.CreateUser(old(Value()), username, hashedPassword, profile)
    {
      if username in users {
        return false;
      }
      users := users[username := Record(hashedPassword, profile, None)];
      order := order + [username];
      return true;
    }

    /** `update_password`. */
    method UpdatePassword(username: string, hashedPassword: string) returns (ok: bool)
      requires Valid()
      modifies this
      ensures Valid()
      ensures Update(ok, Value()) == DbSpec.UpdatePassword(old(Value()), username, hashedPassword)
    {
      if username in users {
        users := users[username := users[username].(hashedPassword := hashedPassword)];
        return true;
      }
      return false;
    }

    /** `store_otp`, with the clock reading passed in as `now`. */
    method StoreOtp(username: string, code: string, now: int) returns (ok: bool)
      requires Valid()
      modifies this
      ensures Valid()
      ensures Update(ok, Value()) == DbSpec.StoreOtp(old(Value()), username, code, now)
    {
      if username in users {
        users := users[username := users[username].(otp := Some(Otp(code, now + OtpLifetime)))];
        return true;
      }
      return false;
    }

    /** `verify_otp`, with the clock reading passed in as `now`. */
    method VerifyOtp(username: string, code: string, now: int) returns (ok: bool)
      requires Valid()
      modifies this
      ensures Valid()
      ensures Update(ok, Value()) == DbSpec.VerifyOtp(old(Value()), username, code, now)
    {
      if username in users && users[username].otp.Some? {
        var otpData := users[username].otp.value;
        if otpData.code == code && now < otpData.expiry {
          users := users[username := users[username].(otp := None)];
          return true;
        }
      }
      return false;
    }
  }
}
