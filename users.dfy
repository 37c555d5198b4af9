/**
 * The user records of convex/users.ts: idempotent creation with a free-credit
 * grant, profile updates, the signed-in user's balance, and plan-based grants.
 */
module Users {
  import opened Common
  import opened Schema

  /** Credits every new user starts with. */
  const FREE_CREDITS: int := 5

  /** `calculateCredits`: the credits a purchased plan is worth; unknown plans are worth nothing. */
  function CalculateCredits(planType: string): (r: int)
    ensures r >= 0
    ensures r > 0 <==> planType in {"thousandCredits", "tenThousandCredits", "thirtyThousandCredits"}
    ensures planType == "thousandCredits" <==> r == 1000
    ensures planType == "tenThousandCredits" <==> r == 10000
    ensures planType == "thirtyThousandCredits" <==> r == 30000
  {
    match planType
    case "thousandCredits" => 1000
    case "tenThousandCredits" => 10000
    case "thirtyThousandCredits" => 30000
    case _ => 0
  }

  /** The row `createUser` inserts for a new external user id. */
  function NewUser(email: string, userId: string, name: string, profileImage: string): User
  {
    User(userId, email, None, None, FREE_CREDITS, Some(name), None, Some(profileImage), None)
  }

  /**
   * `createUser`: insert a user with FREE_CREDITS credits unless a row with the
   * same external id already exists, in which case nothing changes.
   */
  method CreateUser(users: UsersTable, email: string, userId: string, name: string, profileImage: string)
    requires users.Valid()
    modifies users
    ensures users.Valid()
    ensures (exists id :: id in old(users.rows) && old(users.rows)[id].userId == userId) ==>
      users.rows == old(users.rows)
    ensures (forall id :: id in old(users.rows) ==> old(users.rows)[id].userId != userId) ==>
      exists id: UserId :: id !in old(users.rows) && users.rows == old(users.rows)[id := NewUser(email, userId, name, profileImage)]
    ensures exists id :: id in users.rows && users.rows[id].userId == userId
    ensures old(CreditsNonNegative(users.rows)) ==> CreditsNonNegative(users.rows)
  {
    var existing := users.FindByUserId(userId);
    if existing.Some? {
      assert users.rows[existing.value].userId == userId;
      return;
    }
    var id := users.Insert(NewUser(email, userId, name, profileImage));
    assert users.rows[id].userId == userId;
  }

  /**
   * `updateUser`: overwrite the name and profile image of the user with the given
   * external id; throws "user not found" when there is none. Credits are untouched.
   */
  method UpdateUser(users: UsersTable, userId: string, name: string, profileImage: string) returns (r: Outcome<Failure>)
    requires users.Valid()
    modifies users
    ensures users.Valid() && users.nextId == old(users.nextId)
    ensures r.Fail? <==> forall id :: id in old(users.rows) ==> old(users.rows)[id].userId != userId
    ensures r.Fail? ==> r.error == Thrown("user not found") && users.rows == old(users.rows)
    ensures r.Pass? ==> exists id :: (id in old(users.rows) && old(users.rows)[id].userId == userId
      && users.rows == old(users.rows)[id := old(users.rows)[id].(name := Some(name), profileImage := Some(profileImage))])
    ensures users.rows.Keys == old(users.rows).Keys
    ensures forall id :: id in users.rows ==> users.rows[id].credits == old(users.rows)[id].credits
    ensures old(CreditsNonNegative(users.rows)) ==> CreditsNonNegative(users.rows)
  {
    var found := users.FindByUserId(userId);
    if found.None? {
      return Fail(Thrown("user not found"));
    }
    var id := found.value;
    var user := users.rows[id];
    users.rows := users.rows[id := user.(name := Some(name), profileImage := Some(profileImage))];
    r := Pass;
  }

  /**
   * `getCurrentUserCredits`: the document id and balance of the signed-in user;
   * None when nobody is signed in or no row carries the identity's subject.
   */
  method GetCurrentUserCredits(users: UsersTable, identity: Option<string>) returns (r: Option<(UserId, int)>)
    requires users.Valid()
    ensures identity.None? ==> r.None?
    ensures identity.Some? && (forall id :: id in users.rows ==> users.rows[id].userId != identity.value) ==> r.None?
    ensures r.Some? ==> (identity.Some? && r.value.0 in users.rows
      && users.rows[r.value.0].userId == identity.value
      && r.value.1 == users.rows[r.value.0].credits)
    ensures identity.Some? && (exists id :: id in users.rows && users.rows[id].userId == identity.value) ==> r.Some?
  {
    if identity.None? {
      return None;
    }
    var found := users.FindByUserId(identity.value);
    if found.None? {
      return None;
    }
    r := Some((found.value, users.rows[found.value].credits));
  }

  /**
   * `addCredits` (plan-based): add the credits of `planType` to the user with the
   * given external id. An unknown user or a plan worth no credits is a silent
   * no-op: nothing changes and nothing is thrown.
   */
  method AddCredits(users: UsersTable, clerkUserId: string, planType: string)
    requires users.Valid()
    modifies users
    ensures users.Valid() && users.nextId == old(users.nextId)
    ensures (forall id :: id in old(users.rows) ==> old(users.rows)[id].userId != clerkUserId) ==>
      users.rows == old(users.rows)
    ensures CalculateCredits(planType) <= 0 ==> users.rows == old(users.rows)
    ensures forall id :: id in old(users.rows) && old(users.rows)[id].userId == clerkUserId && CalculateCredits(planType) > 0 ==>
      && users.rows == old(users.rows)[id := old(users.rows)[id].(credits := old(users.rows)[id].credits + CalculateCredits(planType))]
      && users.rows[id].credits > old(users.rows)[id].credits
    ensures old(CreditsNonNegative(users.rows)) ==> CreditsNonNegative(users.rows)
  {
    var found := users.FindByUserId(clerkUserId);
    if found.None? {
      return;
    }
    var amountToAdd := CalculateCredits(planType);
    if amountToAdd <= 0 {
      return;
    }
    var id := found.value;
    var user := users.rows[id];
    users.rows := users.rows[id := user.(credits := user.credits + amountToAdd)];
  }
}
