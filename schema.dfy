/**
 * The Convex tables the core reads and writes: the `users` and `story` tables of
 * convex/schema.ts, the `segments` table (whose shape is taken from the fields
 * convex/replicate.ts reads and patches) and the scheduler queue.
 *
 * A table is an object whose `rows` map document ids to records; a mutation that
 * patches a row reassigns `rows`. `nextId` stands for the database's choice of a
 * fresh document id on insert.
 */
module Schema {
  import opened Common

  /** Id<"users">, Id<"story">, Id<"segments"> and Id<"_storage">. */
  type UserId = nat
  type StoryId = nat
  type SegmentId = string
  type StorageId = string

  /** A row of the `users` table. `credits` is a required number in the schema. */
  datatype User = User(
    userId: string,
    email: string,
    subscriptionId: Option<string>,
    endsOn: Option<int>,
    credits: int,
    name: Option<string>,
    isAdmin: Option<bool>,
    profileImage: Option<string>,
    isPremium: Option<bool>)

  /** Every balance in the table is non-negative: the ledger's intended invariant. */
  ghost predicate CreditsNonNegative(rows: map<UserId, User>)
  {
    forall id :: id in rows ==> rows[id].credits >= 0
  }

  /**
   * Story status. The schema's union has the first four values only;
   * `GeneratingSegments` is the value convex/replicate.ts tests for.
   */
  datatype Status = Draft | Processing | Completed | Error | GeneratingSegments

  /** The statuses the schema and the `updateStoryScript` argument validator admit. */
  type SchemaStatus = s: Status | !s.GeneratingSegments? witness Draft

  /** A row of the `story` table; `userId` is the owner. */
  datatype Story = Story(
    title: string,
    userId: UserId,
    script: string,
    status: Status,
    isVertical: Option<bool>)

  /** A row of the `segments` table. */
  datatype Segment = Segment(
    storyId: StoryId,
    text: string,
    order: int,
    isGenerating: bool,
    image: Option<StorageId>,
    previewImage: Option<StorageId>,
    prompt: Option<string>,
    error: Option<string>)

  /** Why a server function threw: an error it raised itself, or a patch of a missing document. */
  datatype Failure = Thrown(message: string) | MissingDocument

  /** A function call waiting in the scheduler (`ctx.scheduler.runAfter(0, ...)`). */
  datatype Job = GenerateGuidedStoryJob(storyId: StoryId, description: string, userId: UserId)

  class UsersTable {
    var rows: map<UserId, User>
    var nextId: nat

    /** Ids are below the next fresh id, and the `by_userId` index holds at most one row per key. */
    ghost predicate Valid()
      reads this
    {
      && (forall id :: id in rows ==> id < nextId)
      && (forall a, b :: a in rows && b in rows && rows[a].userId == rows[b].userId ==> a == b)
    }

    constructor ()
      ensures Valid() && rows == map[]
    {
      rows := map[];
      nextId := 0;
    }

    /** The `by_userId` index lookup (`.first()` and `.unique()` agree under Valid). */
    method FindByUserId(userId: string) returns (r: Option<UserId>)
      requires Valid()
      ensures r.Some? ==> r.value in rows && rows[r.value].userId == userId
      ensures r.Some? ==> forall id :: id in rows && rows[id].userId == userId ==> id == r.value
      ensures r.None? ==> forall id :: id in rows ==> rows[id].userId != userId
    {
      if exists id :: id in rows && rows[id].userId == userId {
        var id :| id in rows && rows[id].userId == userId;
        r := Some(id);
      } else {
        r := None;
      }
    }

    /** `ctx.db.insert("users", u)`. */
    method Insert(u: User) returns (id: UserId)
      requires Valid()
      requires forall k :: k in rows ==> rows[k].userId != u.userId
      modifies this
      ensures Valid()
      ensures id !in old(rows) && rows == old(rows)[id := u]
    {
      id := nextId;
      rows := rows[id := u];
      nextId := nextId + 1;
    }
  }

  class StoryTable {
    var rows: map<StoryId, Story>
    var nextId: nat

    ghost predicate Valid()
      reads this
    {
      forall id :: id in rows ==> id < nextId
    }

    constructor ()
      ensures Valid() && rows == map[]
    {
      rows := map[];
      nextId := 0;
    }

    /** `ctx.db.insert("story", s)`. */
    method Insert(s: Story) returns (id: StoryId)
      requires Valid()
      modifies this
      ensures Valid()
      ensures id !in old(rows) && rows == old(rows)[id := s]
    {
      id := nextId;
      rows := rows[id := s];
      nextId := nextId + 1;
    }
  }

  class SegmentTable {
    var rows: map<SegmentId, Segment>

    constructor ()
      ensures rows == map[]
    {
      rows := map[];
    }
  }

  class Scheduler {
    var jobs: seq<Job>

    constructor ()
      ensures jobs == []
    {
      jobs := [];
    }
  }
}
