/**
 * The credit ledger of convex/credits.ts: a raw credit grant addressed by the
 * identity provider's user id, a read of the caller's balance, and the
 * check-then-debit every paid operation performs first.
 */
module Credits {
  import opened Common
  import opened Schema

  /** The errors `consumeCreditsHelper` raises; each carries what its message interpolates. */
  datatype LedgerError =
    | UserNotFound(id: UserId)
    | InsufficientCredits(id: UserId, required: int, available: int)

  /**
   * `addCredits`: grant a raw amount to the user whose external id is `userId`.
   * Fails, changing nothing, when no user has that id.
   */
  method AddCredits(users: UsersTable, userId: string, credits: int) returns (r: Outcome<Failure>)
    requires users.Valid()
    modifies users
    ensures users.Valid() && users.nextId == old(users.nextId)
    ensures r.Fail? <==> forall id :: id in old(users.rows) ==> old(users.rows)[id].userId != userId
    ensures r.Fail? ==> r.error == Thrown("no user found with that user id") && users.rows == old(users.rows)
    ensures old(CreditsNonNegative(users.rows)) && credits >= 0 ==> CreditsNonNegative(users.rows)
    ensures r.Pass? ==> exists id :: (id in old(users.rows) && old(users.rows)[id].userId == userId
      && users.rows == old(users.rows)[id := old(users.rows)[id].(credits := old(users.rows)[id].credits + credits)])
  {
    var found := users.FindByUserId(userId);
    if found.None? {
      return Fail(Thrown("no user found with that user id"));
    }
    var id := found.value;
    var user := users.rows[id];
    users.rows := users.rows[id := user.(credits := user.credits + credits)];
    r := Pass;
  }

  /**
   * `getMyCredits`: the authenticated caller's balance, or None when there is no
   * caller. `caller` is the row the `authQuery` wrapper resolved, if any.
   */
  function GetMyCredits(rows: map<UserId, User>, caller: Option<UserId>): (r: Option<int>)
    ensures r.None? <==> caller.None? || caller.value !in rows
    ensures r.Some? ==> r.value == rows[caller.value].credits
  {
    if caller.Some? && caller.value in rows then Some(rows[caller.value].credits) else None
  }

  /**
   * `consumeCreditsHelper`: debit `amountToUse` from the user with document id
   * `userId`, all or nothing, in the calling mutation's transaction.
   */
  method ConsumeCreditsHelper(users: UsersTable, userId: UserId, amountToUse: int) returns (r: Outcome<LedgerError>)
    requires users.Valid()
    modifies users
    ensures users.Valid() && users.nextId == old(users.nextId)
    ensures userId !in old(users.rows) ==> r == Fail(UserNotFound(userId)) && users.rows == old(users.rows)
    ensures userId in old(users.rows) && old(users.rows)[userId].credits < amountToUse ==>
      && r == Fail(InsufficientCredits(userId, amountToUse, old(users.rows)[userId].credits))
      && users.rows == old(users.rows)
    ensures r.Pass? <==> userId in old(users.rows) && old(users.rows)[userId].credits >= amountToUse
    ensures r.Pass? ==>
      users.rows == old(users.rows)[userId := old(users.rows)[userId].(credits := old(users.rows)[userId].credits - amountToUse)]
    ensures r.Pass? && amountToUse >= 0 ==>
      0 <= users.rows[userId].credits <= old(users.rows)[userId].credits
    ensures old(CreditsNonNegative(users.rows)) && amountToUse >= 0 ==> CreditsNonNegative(users.rows)
  {
    if userId !in users.rows {
      return Fail(UserNotFound(userId));
    }
    var user := users.rows[userId];
    if user.credits < amountToUse {
      return Fail(InsufficientCredits(userId, amountToUse, user.credits));
    }
    users.rows := users.rows[userId := user.(credits := user.credits - amountToUse)];
    r := Pass;
  }
}
