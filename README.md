# A verified model of the story-generation back end

This project models the server-side core of a story-video generator built on
Convex and Next.js, and proves properties of that model in Dafny:

- **The credit ledger** (`convex/credits.ts`, `convex/users.ts`). Users start with
  five free credits. Purchases add 1 000, 10 000 or 30 000 credits, depending on
  the plan. Every paid operation first debits its cost, and the debit is all or
  nothing. The `users` table is a class whose `rows` map document ids to user
  records. Each mutation is a method that reassigns `rows`. The model proves that
  a failed debit changes nothing. It also proves that every mutation keeps all
  balances non-negative when the amounts it adds or debits are non-negative. A
  negative raw grant can drive a balance below zero, as in the source.
- **The guided-story lifecycle** (`convex/guidedStory.ts`). A mutation debits one
  credit, inserts a story in "processing" and schedules the generation action.
  The action moves the story to "completed" with the chat model's script, or to
  "error".
- **The image stage** (`regenerateSegmentImageUsingPrompt` in
  `convex/replicate.ts`). A try/catch/finally handler marks a segment in flight
  and calls the image model once. It patches the segment with the images or the
  error. In its `finally` block it asks for the story's pending-segment counter
  to be decremented. The handler returns the trace of its external steps. The
  model proves that the trace holds at most one decrement. That decrement is the
  last step, and it happens exactly when the story is generating segments.
- **Translation** (`lib/translations.ts`, `hooks/useTranslation.ts`). A lookup
  falls back to English and then to the key itself. A name that every object
  inherits from `Object.prototype`, such as "toString", yields that inherited
  member instead. `{name}` placeholders are then substituted, one variable at a
  time. `t` throws when a name such as `0` or `1,2` makes the pattern an invalid
  regular expression. It also throws when the lookup gave an inherited member,
  which has no `replace` method.
- **Reading-time estimate** (`analyzeTextAndEstimateDuration` in `lib/utils.ts`).
  It gives a character count without whitespace and a word count. It also gives
  the spoken duration at 150 English words or 250 CJK characters per minute.

External services are parameters of the model. These are the chat model, the
image model, the download and the blob store, the identity provider and the
environment. Each one appears as the value it produced.

Files: `common.dfy` (Option, Outcome, Result, integer printing), `schema.dfy`
(tables and records), `credits.dfy`, `users.dfy`, `guided_story.dfy`,
`replicate.dfy`, `translations.dfy`, `use_translation.dfy`, `text_stats.dfy`.

## Model

| member | source | states |
|---|---|---|
| Schema.UsersTable.FindByUserId | convex/users.ts:25-28 | The `by_userId` lookup returns the one row with that external id, or None exactly when no row has it |
| Schema.UsersTable.Insert | convex/users.ts:32-38 | An insert adds the record under a fresh document id and changes no other row; at most one row per external id is kept |
| Schema.StoryTable.Insert | convex/guidedStory.ts:20-25 | A story insert adds the record under a fresh id and changes no other row |
| Credits.AddCredits | convex/credits.ts:7-26 | Throws "no user found with that user id", changing nothing, exactly when no row has the id; otherwise adds the amount to that one row only; a non-negative grant keeps all balances non-negative |
| Credits.GetMyCredits | convex/credits.ts:28-36 | null exactly when there is no authenticated caller row, otherwise the caller's balance |
| Credits.ConsumeCreditsHelper | convex/credits.ts:38-55 | Missing user or balance below the amount: the matching error (with id, required and available amounts) and no change; otherwise the balance drops by exactly the amount and stays between 0 and its old value; non-negativity of all balances is preserved |
| Users.CalculateCredits | convex/users.ts:6-15 | The three plans are worth exactly 1000, 10000 and 30000 credits; every other plan is worth 0; never negative |
| Users.CreateUser | convex/users.ts:17-40 | Idempotent: an existing external id leaves the table unchanged; otherwise exactly one row with FREE_CREDITS credits is added under a fresh id; afterwards a row with the id exists |
| Users.UpdateUser | convex/users.ts:42-59 | Throws "user not found", changing nothing, exactly when no row has the id; otherwise only that row's name and profile image change; no balance changes |
| Users.GetCurrentUserCredits | convex/users.ts:62-93 | null when signed out or when no row carries the identity's subject; otherwise that row's id and balance |
| Users.AddCredits | convex/users.ts:95-127 | Unknown user or a plan worth nothing: silent no-op; otherwise the user's balance grows by exactly the plan's credits and nothing else changes |
| GuidedStory.GenerateGuidedStoryMutation | convex/guidedStory.ts:12-38 | Fails with the debit's error, changing no table and scheduling nothing, exactly when the caller lacks one credit; otherwise one credit is debited, a new "processing" story owned by the caller is inserted, and exactly one generation job for it is scheduled |
| GuidedStory.GenerateGuidedStoryAction | convex/guidedStory.ts:40-89 | The client constructor's error, if any, escapes first and changes nothing; then no API key: throws the missing-key message before touching the story; succeeds exactly when the key is set, the story exists and the reply has content, and then stores the script with status "completed"; otherwise, for an existing story, the status becomes "error" and the error is rethrown; a missing story changes nothing and fails with the missing-document error of the failed status write |
| GuidedStory.UpdateStoryStatusToError | convex/guidedStory.ts:91-99 | Only the status changes, to "error"; the message is not stored; a missing story throws and changes nothing |
| GuidedStory.UpdateStoryScript | convex/guidedStory.ts:101-119 | Only script and status change; a missing story throws and changes nothing |
| GuidedStory.UpdateStoryScriptPublic | convex/guidedStory.ts:121-132 | Only the script changes; a missing story throws and changes nothing |
| Replicate.TargetSize | convex/replicate.ts:39-41 | Portrait exactly when the story is vertical; 1080 x 1920 pixels either way |
| Replicate.PreviewBox | convex/replicate.ts:92-95 | The preview box is the 468 x 850 box turned to the story's orientation |
| Replicate.RequestFor | convex/replicate.ts:44-73 | The model call carries the segment's prompt; SDXL exactly when Flux is not selected, with the target size; Flux with aspect ratio 9:16 or 16:9 by orientation |
| Replicate.ApplyPatch | convex/replicate.ts:33-37 | An `updateSegment` patch sets each supplied field and keeps every other field, including story, text, order and prompt |
| Replicate.ApplyPatchIdempotent | convex/replicate.ts:33-37 | Applying the same patch twice is applying it once |
| Replicate.CountsZero | convex/replicate.ts:44-124 | The decrement count and the image-call count of a trace are zero exactly when it holds no step of that kind |
| Replicate.UpdateSegmentRow | convex/replicate.ts:33-37 | `updateSegment` patches only the fields supplied, and a missing segment throws with no change |
| Replicate.CountsAdd | convex/replicate.ts:120-124 | Decrements and image calls in a trace add up over concatenation |
| Replicate.TryGenerate | convex/replicate.ts:22-109 | The try block: a missing segment, a missing prompt or a missing story raise their messages before any step; otherwise the segment is marked in flight, the image model is called once, and the segment gets the stored images or the run's error is raised; the story id is read exactly when the segment exists |
| Replicate.RegenerateSegmentImageUsingPrompt | convex/replicate.ts:17-137 | The action throws only when the segment is missing, and then only the catch block's patch is attempted; at most one decrement, as the last step, exactly when the segment's story is generating segments; at most one image call, exactly when prompt and story are present, right after the segment is marked in flight; the final segment holds the stored images, or the "Image generation failed: " message of the step that failed, with `isGenerating` false |
| Translations.Read | lib/translations.ts:112 | A property read gives the table's own entry, else exactly the inherited `Object.prototype` member of that name, else `undefined` |
| Translations.Lookup | lib/translations.ts:111-113 | The own table's non-empty entry, else the inherited member when the own table lacks the key, else the English table's non-empty entry, else the inherited member when only the English table lacks it, else the key itself (also when both entries are empty); a string other than the key always comes from one of the tables |
| Translations.GetTranslation | lib/translations.ts:109-113 | `getTranslation` yields an inherited member only under that member's own name, and any string other than the key is the language's or the English entry; `KnownKeyTranslates`, `UnknownKeyEchoes` and `PrototypeNameYieldsMember` split every key into its three outcomes |
| Translations.TablesAgree | lib/translations.ts:1-107 | The English and Chinese tables define the same keys |
| Translations.EnEntriesTranslate | lib/translations.ts:2-53 | No English entry is empty or equal to its key |
| Translations.ZhEntriesTranslate | lib/translations.ts:54-105 | No Chinese entry is empty or equal to its key |
| Translations.KnownKeyTranslates | lib/translations.ts:109-113 | A translation key yields its own table's entry in either language, never the key |
| Translations.UnknownKeyEchoes | lib/translations.ts:111-113 | A string that is neither a key nor an inherited property name comes back unchanged |
| Translations.PrototypeNameYieldsMember | lib/translations.ts:111-113 | An inherited property name that is not a key yields the inherited member, not the key |
| Translations.ToStringYieldsMember | lib/translations.ts:111-113 | "toString" yields `Object.prototype.toString` in either language |
| Common.IntToString | hooks/useTranslation.ts:20 | `String(n)` of an integer is the canonical decimal numeral that reads back as `n` |
| Common.NatToString | hooks/useTranslation.ts:20 | The numeral of a natural number has no leading zero and reads back as the number |
| UseTranslation.Display | hooks/useTranslation.ts:20 | `String(value)` of a string is that string; of a safe integer it is the canonical numeral that reads back as the integer |
| UseTranslation.Placeholder | hooks/useTranslation.ts:19 | The placeholder is an opening brace, the name, and a closing brace |
| UseTranslation.PlaceholderBorderFree | hooks/useTranslation.ts:19 | A placeholder whose name has no braces cannot overlap itself |
| UseTranslation.ReplaceAll | hooks/useTranslation.ts:20 | Replacing the placeholder by itself changes nothing, and a replacement no longer than the placeholder never lengthens the text |
| UseTranslation.ReplaceAllNoOccurrence | hooks/useTranslation.ts:20 | A global replace leaves a string without the placeholder unchanged |
| UseTranslation.ReplaceAllAfterPlain | hooks/useTranslation.ts:20 | Text before the first occurrence is kept and that occurrence is replaced |
| UseTranslation.ReplaceAllJoin | hooks/useTranslation.ts:20 | Every occurrence is replaced and all text between occurrences is kept |
| UseTranslation.SubstituteOneVariable | hooks/useTranslation.ts:17-21 | One variable turns each `{name}` into its value and keeps all other text |
| UseTranslation.SplitExists | hooks/useTranslation.ts:19 | Every text splits at the occurrences of a non-empty pattern into parts that hold none, joined by the pattern |
| UseTranslation.EveryPlaceholderReplaced | hooks/useTranslation.ts:17-21 | For a brace-free name, every text is its placeholder-free parts joined by `{name}`, and substituting the variable joins the same parts with its value |
| UseTranslation.SubstituteAbsentPlaceholders | hooks/useTranslation.ts:17-21 | Applying the variables in order leaves a text that holds none of their placeholders unchanged |
| UseTranslation.IntegerNameIsQuantifier | hooks/useTranslation.ts:19 | Every integer-like name makes `{name}` a braced quantifier, the pattern `new RegExp` rejects |
| UseTranslation.FirstInvalid | hooks/useTranslation.ts:17-19 | Finds the first variable whose pattern throws, or reports that none does |
| UseTranslation.SubstituteInSequence | hooks/useTranslation.ts:17-21 | Variables are applied one after another, each to the previous result |
| UseTranslation.SubstituteThrowsAt | hooks/useTranslation.ts:17-20 | When the pattern at position i throws and every earlier pattern is valid, `t` throws that SyntaxError |
| UseTranslation.SubstituteCompletes | hooks/useTranslation.ts:17-21 | When every pattern is valid, a string lookup gets every variable substituted in order |
| UseTranslation.Substitute | hooks/useTranslation.ts:16-22 | The `forEach` fails exactly when some name is quantifier-like or the lookup gave an inherited member and there are variables; the TypeError happens exactly when the first name is valid and the value is inherited; a completed substitution over at least one variable is a string; `SubstituteThrowsAt` and `SubstituteCompletes` give the exact error and result |
| UseTranslation.SubstituteVariables | hooks/useTranslation.ts:16-22 | The `forEach` loop returns or throws exactly what `Substitute` says |
| UseTranslation.Translate | hooks/useTranslation.ts:11-26 | Without variables, `t` is the lookup. With variables, it throws a SyntaxError at the first quantifier-like name. It throws a TypeError when the lookup gave an inherited member and the first name is valid. Otherwise it is the looked-up string with each variable substituted in key order |
| TextStats.IsWhitespace | lib/utils.ts:27 | The `\s` class; no whitespace character is a CJK ideograph or lies beyond U+FFFF |
| TextStats.RemoveWhitespace | lib/utils.ts:27 | The result holds no whitespace, keeps exactly the text's non-whitespace characters, is shorter by the number of whitespace characters, and equals a text that had none |
| TextStats.CjkCount | lib/utils.ts:26 | The number of `[一-龥]` matches; zero exactly when the text has no such character |
| TextStats.Utf16Length | lib/utils.ts:29 | `.length` counts between one and two units per character, and exactly one per character when all lie in the Basic Multilingual Plane |
| TextStats.EstimateDuration | lib/utils.ts:44-57 | Minutes are non-negative and seconds lie in 0-59; a positive reading time never shows 0:00 |
| TextStats.RemoveWhitespaceConcat | lib/utils.ts:27 | Whitespace removal distributes over concatenation |
| TextStats.BmpCharacterCount | lib/utils.ts:27-29 | For text inside the Basic Multilingual Plane the character count is the text's length minus its whitespace count |
| TextStats.CjkWithinCharacterCount | lib/utils.ts:26-29 | The CJK count never exceeds the character count |
| TextStats.MathRound | lib/utils.ts:49 | `Math.round` gives the integer within one half below and strictly less than one half above |
| TextStats.AnalyzeTextAndEstimateDuration | lib/utils.ts:13-68 | Character count without whitespace in UTF-16 units; words are English words plus CJK characters; `totalMinutes` is English words / 150 plus CJK characters / 250; minutes and seconds add up to the rounded total, with seconds below 60 |
| TextStats.DurationMatchesReference | lib/utils.ts:40-57 | The floating-point branch equals the integer reference (10 x words + 6 x CJK characters) / 25 seconds, rounded half up, with a positive total under one second counted as one |
| TextStats.ZeroDurationIffNothingToRead | lib/utils.ts:44-57 | 0:00 is reported exactly when there are no words and no CJK characters |
| TextStats.UnderASecondReportsOne | lib/utils.ts:49 | Any positive reading time under a second is reported as one second |
| TextStats.RoundedSecondsMonotone | lib/utils.ts:35-50 | More words or characters never give a shorter estimate |

## Left out

- The user interface, the pages, the Stripe checkout and webhook code, and the audio, segmenting and video stages are not part of this model.
- The Stripe fulfilment calls `users.addCredits` with `{userId, credits}`, but that mutation expects `{clerkUserId, planType}`. The Stripe code is not part of this model, so the mismatch is only noted here.
- The `authMutation` and `authQuery` wrappers of `convex/util.ts` are not part of this model. The row they resolve is a parameter (`caller`).
- The chat model, the image model, the image download, Jimp decoding and scaling, and the blob store are parameters (`ChatOutcome`, `ImageRun`). Their requests appear only as values, and the pixel work is not modelled.
- `decrementPendingSegmentsAndFinalize`, `getStoryInternal` and `getSegmentInternal` are not part of this model. The decrement appears only as an effect in the trace, and the two reads are reads of the tables.
- GuidedStory.GenerateGuidedStoryAction: the `openai` client constructor is not part of this model. Whether it throws, for instance when neither `DEEPSEEK_API_KEY` nor the SDK's own `OPENAI_API_KEY` fallback is set, is a parameter (`clientError`), and its message is not modelled.
- Replicate.UpdateSegmentRow: `updateSegment` is not part of this model. It is modelled as a patch of the supplied fields that throws on a missing segment.
- Concurrency is not modelled. Each Convex mutation runs as one atomic step, and interleavings of scheduled jobs with other mutations are out of scope.
- Credits.GetMyCredits: the `?? 0` default cannot be reached, because the schema makes `credits` a required number. The model has no missing-balance case.
- The story status union in `convex/schema.ts` has no "generating_segments" value, although `convex/replicate.ts` tests for it. The model adds `GeneratingSegments` to `Status`, and `SchemaStatus` excludes it where an argument validator is involved.
- TextStats.AnalyzeTextAndEstimateDuration: the duration is computed in exact rationals rather than IEEE doubles. The number of English-word regular-expression matches is an input, not computed from the text.
- UseTranslation.Translate: the replacement is a literal replace-all. The model does not cover names with regular-expression metacharacters, which match other text or throw, or values with `$` replacement patterns. It does cover names that make the pattern a braced quantifier.
- UseTranslation.Translate: the variables are taken in the order `Object.keys` gives them. Array-index keys come first in that order, and `IntegerNameIsQuantifier` shows each of them throws, so any run that does not throw uses insertion order.
- UseTranslation.Translate: the error is modelled by its kind and the offending pattern. The exact error messages are not modelled.
- UseTranslation.Display: only safe integers are modelled. Fractional, NaN and infinite values are not, and neither is the exponent form `String` uses from 1e21 up.
- Credits.AddCredits: balances and amounts are JavaScript numbers (`v.number()`) but are modelled as unbounded integers. Fractional amounts, NaN and rounding of large doubles are not modelled. Non-negativity is promised only for non-negative grants, because the source does not check the sign.
- Credits.ConsumeCreditsHelper: the amount is modelled as an integer. A NaN amount passes the source's balance check and writes NaN, and the model does not show this.
- Logging (`console.error`, `console.warn`), the React hook's state, and the `cn` class-name helper have no observable effect on the tables and are left out.
