/**
 * The guided-story lifecycle of convex/guidedStory.ts. A mutation debits one
 * credit, inserts a story in "processing" and schedules the generation action;
 * the action asks a chat model for the script and moves the story to
 * "completed" with that script, or to "error". The chat model is an input: the
 * reply it gave, or the error the request threw.
 */
module GuidedStory {
  import opened Common
  import opened Schema
  import Credits

  /** Credits a chat completion costs. */
  const CHAT_COMPLETION: int := 1

  /** What the chat-completion request produced: the first choice's content, or a thrown error. */
  datatype ChatOutcome = Reply(content: Option<string>) | RequestFailed(message: string)

  const MISSING_KEY_MESSAGE: string := "DeepSeek API key not set in environment variables."
  const EMPTY_REPLY_MESSAGE: string := "Failed to generate story"

  /** The story a new guided generation starts from. */
  function NewStory(title: string, owner: UserId): Story
  {
    Story(title, owner, "", Processing, None)
  }

  /** Whether a chat outcome yields a usable script (the content is present and non-empty). */
  predicate Usable(reply: ChatOutcome)
  {
    reply.Reply? && reply.content.Some? && reply.content.value != ""
  }

  /**
   * `generateGuidedStoryMutation`: debit CHAT_COMPLETION credits from the caller,
   * insert the story, schedule one generation job for it and return its id. When
   * the debit fails nothing is inserted or scheduled and the debit's error is thrown.
   */
  method GenerateGuidedStoryMutation(users: UsersTable, stories: StoryTable, scheduler: Scheduler,
                                     caller: UserId, title: string, description: string)
    returns (r: Result<StoryId, Credits.LedgerError>)
    requires users.Valid() && stories.Valid()
    modifies users, stories, scheduler
    ensures users.Valid() && stories.Valid()
    ensures r.Err? <==> caller !in old(users.rows) || old(users.rows)[caller].credits < CHAT_COMPLETION
    ensures r.Err? ==>
      && users.rows == old(users.rows)
      && stories.rows == old(stories.rows)
      && scheduler.jobs == old(scheduler.jobs)
    ensures r.Ok? ==>
      && users.rows == old(users.rows)[caller := old(users.rows)[caller].(credits := old(users.rows)[caller].credits - CHAT_COMPLETION)]
      && r.value !in old(stories.rows)
      && stories.rows == old(stories.rows)[r.value := NewStory(title, caller)]
      && scheduler.jobs == old(scheduler.jobs) + [GenerateGuidedStoryJob(r.value, description, caller)]
  {
    var debit := Credits.ConsumeCreditsHelper(users, caller, CHAT_COMPLETION);
    if debit.Fail? {
      return Err(debit.error);
    }
    var storyId := stories.Insert(NewStory(title, caller));
    scheduler.jobs := scheduler.jobs + [GenerateGuidedStoryJob(storyId, description, caller)];
    r := Ok(storyId);
  }

  /**
   * `updateStoryStatusToError`: set the story's status to "error". The error
   * message argument is not stored anywhere.
   */
  method UpdateStoryStatusToError(stories: StoryTable, storyId: StoryId, errorMessage: string) returns (r: Outcome<Failure>)
    requires stories.Valid()
    modifies stories
    ensures stories.Valid() && stories.nextId == old(stories.nextId)
    ensures r.Fail? <==> storyId !in old(stories.rows)
    ensures r.Fail? ==> r.error == MissingDocument && stories.rows == old(stories.rows)
    ensures r.Pass? ==> stories.rows == old(stories.rows)[storyId := old(stories.rows)[storyId].(status := Error)]
  {
    if storyId !in stories.rows {
      return Fail(MissingDocument);
    }
    stories.rows := stories.rows[storyId := stories.rows[storyId].(status := Error)];
    r := Pass;
  }

  /** `updateStoryScript`: overwrite the story's script and status, nothing else. */
  method UpdateStoryScript(stories: StoryTable, storyId: StoryId, script: string, status: SchemaStatus) returns (r: Outcome<Failure>)
    requires stories.Valid()
    modifies stories
    ensures stories.Valid() && stories.nextId == old(stories.nextId)
    ensures r.Fail? <==> storyId !in old(stories.rows)
    ensures r.Fail? ==> r.error == MissingDocument && stories.rows == old(stories.rows)
    ensures r.Pass? ==> stories.rows == old(stories.rows)[storyId := old(stories.rows)[storyId].(script := script, status := status)]
  {
    if storyId !in stories.rows {
      return Fail(MissingDocument);
    }
    stories.rows := stories.rows[storyId := stories.rows[storyId].(script := script, status := status)];
    r := Pass;
  }

  /**
   * `updateStoryScriptPublic`: overwrite the story's script only. It is a public
   * mutation with no ownership check.
   */
  method UpdateStoryScriptPublic(stories: StoryTable, storyId: StoryId, script: string) returns (r: Outcome<Failure>)
    requires stories.Valid()
    modifies stories
    ensures stories.Valid() && stories.nextId == old(stories.nextId)
    ensures r.Fail? <==> storyId !in old(stories.rows)
    ensures r.Fail? ==> r.error == MissingDocument && stories.rows == old(stories.rows)
    ensures r.Pass? ==> stories.rows == old(stories.rows)[storyId := old(stories.rows)[storyId].(script := script)]
  {
    if storyId !in stories.rows {
      return Fail(MissingDocument);
    }
    stories.rows := stories.rows[storyId := stories.rows[storyId].(script := script)];
    r := Pass;
  }

  /**
   * `generateGuidedStoryAction`. The chat client is built first: when its
   * constructor throws (`clientError`), that error escapes before anything else.
   * Without an API key it then throws before touching the story, which
   * therefore stays in "processing". Otherwise a usable reply
   * becomes the script with status "completed"; an empty or absent reply, or a
   * failed request, sets status "error" and the error is re-thrown.
   */
  method GenerateGuidedStoryAction(stories: StoryTable, storyId: StoryId, description: string, userId: UserId,
                                   clientError: Option<string>, apiKey: Option<string>, reply: ChatOutcome)
    returns (r: Outcome<Failure>)
    requires stories.Valid()
    modifies stories
    ensures stories.Valid() && stories.nextId == old(stories.nextId)
    ensures clientError.Some? ==> r == Fail(Thrown(clientError.value)) && stories.rows == old(stories.rows)
    ensures clientError.None? && (apiKey.None? || apiKey.value == "") ==>
      r == Fail(Thrown(MISSING_KEY_MESSAGE)) && stories.rows == old(stories.rows)
    ensures storyId !in old(stories.rows) ==> r.Fail? && stories.rows == old(stories.rows)
    ensures clientError.None? && apiKey.Some? && apiKey.value != "" && storyId !in old(stories.rows) ==>
      r == Fail(MissingDocument)
    ensures r.Pass? <==>
      clientError.None? && apiKey.Some? && apiKey.value != "" && storyId in old(stories.rows) && Usable(reply)
    ensures r.Pass? ==>
      stories.rows == old(stories.rows)[storyId := old(stories.rows)[storyId].(script := reply.content.value, status := Completed)]
    ensures clientError.None? && apiKey.Some? && apiKey.value != "" && storyId in old(stories.rows) && !Usable(reply) ==>
      && stories.rows == old(stories.rows)[storyId := old(stories.rows)[storyId].(status := Error)]
      && r == Fail(Thrown(if reply.RequestFailed? then reply.message else EMPTY_REPLY_MESSAGE))
  {
    if clientError.Some? {
      return Fail(Thrown(clientError.value));
    }
    if apiKey.None? || apiKey.value == "" {
      return Fail(Thrown(MISSING_KEY_MESSAGE));
    }
    // try
    var caught: Option<Failure> := None;
    if reply.RequestFailed? {
      caught := Some(Thrown(reply.message));
    } else if reply.content.None? || reply.content.value == "" {
      caught := Some(Thrown(EMPTY_REPLY_MESSAGE));
    } else {
      var written := UpdateStoryScript(stories, storyId, reply.content.value, Completed);
      if written.Fail? {
        caught := Some(written.error);
      }
    }
    if caught.None? {
      return Pass;
    }
    // catch: record the failure on the story, then re-throw. The message is passed
    // along but never stored, so the database's own text for a missing document is not modelled.
    var message := if caught.value.Thrown? then caught.value.message else "";
    var marked := UpdateStoryStatusToError(stories, storyId, message);
    if marked.Fail? {
      return Fail(marked.error);
    }
    r := Fail(caught.value);
  }
}
