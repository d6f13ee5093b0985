# Billing engine and request helpers of a chat assistant, in Dafny

This project models the billing and usage-metering engine of a Flask chat
assistant, along with the request-shaping helpers of its web application.

The billing engine keeps one account row per user. The row holds:
- a subscription status (free, pro, cancelled or past due);
- a plan name;
- the payment provider's subscription and customer ids;
- the current billing period;
- a monthly quota and a request counter;
- two flags: overage enabled and auto-stop at limit.

Webhook events from the payment provider (Lemon Squeezy) are handled in four steps:
1. The event is resolved to an account.
2. It is journaled under its provider event id.
3. The handler for its event type runs.
4. It is marked processed.

Resolution reads the accounts on separate connections first; steps 2–4 run in one transaction, so they either all take effect or none does. `check_quota` decides whether one more request is admitted. `log_usage` appends a usage row and counts the request. `get_usage_stats` reports the integer figures and a per-action breakdown of the current period.

The helpers cover:
- the web-search trigger;
- the search-context text;
- the session title;
- the message list sent to the model;
- the choice of request body by model family;
- the extraction of the reply;
- the input checks of the register, chat and execute-code endpoints.

The files are:
- `common.dfy`: `Option`, `Result`, Python truthiness of an optional string, `Max` and `Min`.
- `text.dfy`: `str.lower`, substring search, `str.strip`, decimal digits.
- `accounts.dfy`: the `users` row with its defaults, the webhook body, and the journal and usage rows.
- `datetime.dfy`: `_to_mysql_datetime`. The `strptime` grammar of `%Y-%m-%dT%H:%M:%S.%fZ` and the `strftime` rendering are modelled, with the limits listed under "## Left out".
- `subscription.dfy`: each event handler, as a function from the old row to the new row. The store applies the selected one to the stored row in a single update.
- `quota.dfy`: the admission decision, repeated admissions, and the usage statistics with their breakdown.
- `ledger.dfy`: the store as a class.
  - The webhook processor with account resolution, journal, dispatch and rollback.
  - `check_quota`, `log_usage` and `get_usage_stats` against the store.
- `signature.dfy`: webhook signature verification, with the HMAC as a parameter.
- `chat.dfy`: the helpers of the chat endpoint.
- `validation.dfy`: the register, chat and execute-code input checks.

The model follows the code as written; in particular:
- A redelivered event id fails the journal's UNIQUE constraint. The whole transaction then rolls back and the delivery is answered with failure, not with a benign success.
- An event whose account cannot be resolved is not recorded at all. Nothing is written.
- Account resolution has four steps, not three. The custom `user_id` is looked for first in `data.attributes.custom_data`, then in `meta.custom_data`.
- `subscription_resumed` sets the status to pro from any status, not only from cancelled.
- Event types outside the handled set, such as `subscription_paused`, are journaled and marked processed with no change to the account.

## Model

| member | source | states |
|---|---|---|
| Accounts.NewAccount | database.py:40-52 | A new row: status free, plan "Free", quota 50, counter 0, overage enabled, auto-stop off; no subscription, customer, subscription dates, period or last quota reset |
| MysqlDatetime.ToMysqlDatetime | lemonsqueezy.py:267-274 | Missing or empty input gives None. The result is Some exactly when strptime accepts the input, and a Some result has the fixed 19-character `YYYY-MM-DD HH:MM:SS` layout |
| MysqlDatetime.ParseProviderForm | lemonsqueezy.py:271 | The strptime grammar reads every valid instant back from the provider's rendering with 1 to 6 fraction digits |
| MysqlDatetime.NormalisesProviderForm | lemonsqueezy.py:267-274 | `YYYY-MM-DDTHH:MM:SS.ffffffZ` becomes the date, a space and the time; the fraction and the Z are dropped |
| MysqlDatetime.OutputNotReaccepted | lemonsqueezy.py:271-272 | The normaliser's own output is refused by it (None), because the space stands where strptime wants the T |
| MysqlDatetime.SpaceForTRejected | lemonsqueezy.py:271 | A string with a four-digit year, two-digit month and day and a space after the day is refused by strptime, whatever follows |
| Subscription.ProviderStatus | lemonsqueezy.py:301-309 | The status map as four if-and-only-ifs: active gives pro; past_due gives past_due; cancelled or paused gives cancelled; anything else, missing or expired gives free |
| Subscription.Created | lemonsqueezy.py:265-297 | From any row: pro, plan Pro, quota 2000, counter 0, the provider's ids, normalised start and period dates, reset time now; the other columns are unchanged |
| Subscription.Updated | lemonsqueezy.py:299-330 | Status from the status map and a normalised period; every other column, including quota and counter, is unchanged |
| Subscription.CancelledOrExpired | lemonsqueezy.py:332-339 | Status cancelled and the raw `ends_at` as end date; nothing else changes |
| Subscription.Resumed | lemonsqueezy.py:341-348 | Status pro and no end date, from any status; nothing else changes |
| Subscription.PaymentSuccess | lemonsqueezy.py:350-367 | Counter 0, reset time now, normalised period; the status and the rest are unchanged |
| Subscription.PaymentFailed | lemonsqueezy.py:369-375 | Status past_due and nothing else |
| Subscription.Transition | lemonsqueezy.py:236-247 | An unhandled event name leaves the row as it was. No event touches the e-mail or the two flags. The counter is either kept or zeroed, and the quota is either kept or set to 2000 |
| Subscription.CounterAndQuotaWriters | lemonsqueezy.py:236-247 | Only created and payment_success change the counter, and only created changes the quota (if-and-only-if) |
| Subscription.TransitionIdempotent | lemonsqueezy.py:236-247 | Applying an event's handler twice gives the row that applying it once gives |
| Subscription.StatusAfter | lemonsqueezy.py:236-247 | The status after each event type, and that every other event keeps it |
| Subscription.ExpiryDisagreement | lemonsqueezy.py:299-339 | A provider status "expired" makes an update give free, but an expired event gives cancelled |
| Quota.Decide | lemonsqueezy.py:382-447 | The decision table. remaining = max(0, quota − used), and is_overage iff used ≥ quota. Allowed iff below quota, or auto-stop is off and overage is enabled. The refusal messages: auto-stop is checked first |
| Quota.HardCapAdmissions | lemonsqueezy.py:410-435 | With auto-stop on or overage off, exactly min(n, max(0, quota − used)) of n successive requests are admitted |
| Quota.OverageAdmitsAll | lemonsqueezy.py:410-445 | With overage on and auto-stop off, all n successive requests are admitted |
| Quota.CreatedAdmits | lemonsqueezy.py:275-297 | After subscription_created the next request is admitted, not as overage, with 2000 remaining |
| Quota.PaymentSuccessAdmits | lemonsqueezy.py:350-367 | After a successful payment the next request is admitted with the whole quota remaining, when the quota is positive |
| Quota.NewAccountAdmits | database.py:48-52 | A new account is admitted with 50 remaining and never refused afterwards |
| Quota.Selected | lemonsqueezy.py:521-528 | The breakdown query's rows: the user's rows of one action type whose period bounds equal the account's. A NULL bound matches nothing |
| Quota.Breakdown | lemonsqueezy.py:521-530 | One tally (count, token sum) per action type that has selected rows, and no entry for the others |
| Quota.Stats | lemonsqueezy.py:502-551 | remaining and overage_requests are non-negative, at most one is non-zero, and remaining − overage = quota − used. remaining equals check_quota's figure |
| Quota.AppendInPeriod | lemonsqueezy.py:521-528 | A new row of the current period adds one to its action's count and its tokens to its sum, and leaves the other actions' tallies alone |
| Quota.AppendOutsidePeriod | lemonsqueezy.py:521-528 | A row outside the current period changes no tally |
| Quota.NoPeriodNoBreakdown | lemonsqueezy.py:521-528 | While the account has no period start, its breakdown is empty |
| Quota.TalliesPartition | lemonsqueezy.py:521-528 | The five per-action counts add up to the number of the user's rows in the current period |
| Ledger.CustomId | lemonsqueezy.py:173-183 | A custom user id counts exactly when Python finds it truthy: a non-zero number or a non-empty string, so the string "0" counts |
| Ledger.UserKey | lemonsqueezy.py:222-234 | The `users.id` MySQL stores for the journal's `user_id`: a number as is, a string of digits as its value, and no key for any other string |
| Ledger.CheckoutIdReadBack | lemonsqueezy.py:64 | The `str(user_id)` the checkout sends is a counted custom id, and it is read back as that same account id |
| Ledger.TextZeroRefused | lemonsqueezy.py:174-180 | A custom id "0" stops the chain before the e-mail lookup, and the journal insert is then refused because no account has id 0 |
| Ledger.ResolutionUnique | lemonsqueezy.py:171-210 | The resolved account is determined by the event and the accounts unless the chain reaches the customer-id step; the e-mail step is unambiguous because e-mails are unique |
| Ledger.CustomIdFirst | lemonsqueezy.py:173-177 | A custom user id in the attributes wins over every lookup |
| Ledger.JournalFault | lemonsqueezy.py:222-235 | The journal insert succeeds iff event type, `data.id` and event id are present, the id is not journaled yet, and the user id reads as the id of an existing account (database.py:110-125) |
| Ledger.Store.AddAccount | app.py:212-220 | Inserts a default row under a fresh id; a taken e-mail is refused and nothing changes |
| Ledger.Store.ResolveUser | lemonsqueezy.py:171-210 | The four-step chain: attributes custom id, meta custom id, owner of `user_email` or `customer_email`, an owner of `customer_id`, else none |
| Ledger.Store.Dispatch | lemonsqueezy.py:236-247 | The user's row becomes its `Subscription.Transition`; journal and usage log are untouched |
| Ledger.Store.MarkProcessed | lemonsqueezy.py:249-254 | Sets `processed` on the event's journal row only |
| Ledger.Store.ProcessWebhookEvent | lemonsqueezy.py:149-263 | Keeps the store invariant. The account is the one the chain resolves. An unresolved event or a refused insert writes nothing, and an id already journaled as the same string is refused. On success the event is journaled processed and the account moves by `Transition` |
| Ledger.Store.DeliverTwice | lemonsqueezy.py:222-261 | The second delivery of the same event is refused with the duplicate id after a committed first delivery, and with the first delivery's own refusal otherwise; the store ends exactly as one delivery leaves it |
| Ledger.StillResolves | lemonsqueezy.py:171-210 | After a committed delivery the same event still resolves to an account, since no handler changes an e-mail and only the event's own customer id is ever written |
| Ledger.SameFault | lemonsqueezy.py:171-235 | Two resolutions of one event against one store both fail or both succeed, and meet the same journal outcome, even where the customer-id step may pick different owners |
| Ledger.Store.CheckQuota | lemonsqueezy.py:382-447 | An unknown user is refused; otherwise the decision of `Quota.Decide` on the user's row |
| Ledger.Store.LogUsage | lemonsqueezy.py:450-499 | An unknown user is refused with nothing written. Otherwise exactly one row is appended, with the stored period or the clock fallback and `is_overage` = used ≥ quota before the increment (check_quota's is_overage). The counter goes up by one, nothing else changes, and the action's count in the current period grows by one |
| Ledger.Store.UsageStats | lemonsqueezy.py:502-551 | None for an unknown user, otherwise `Quota.Stats` of the user's row and the usage log |
| Common.ValueOr | lemonsqueezy.py:480-481 | The stored period bound when present, or the clock value that stands in for NULL (also the default of a missing request field) |
| Signature.Hex | lemonsqueezy.py:141-145 | `hexdigest`: two lower-case hexadecimal digits per byte |
| Signature.HexInjective | lemonsqueezy.py:141-145 | Distinct digests render differently |
| Signature.VerifySignature | lemonsqueezy.py:139-147 | An unset secret or a non-ASCII signature raises. Otherwise the result is true iff the signature equals the hex rendering of the HMAC of the body under the secret |
| Signature.SignatureBindsDigest | lemonsqueezy.py:139-147 | A signature accepted for two bodies implies that the HMAC collides on them |
| Signature.MalformedRejected | lemonsqueezy.py:147 | A signature of the wrong length or with a character outside 0-9a-f is never accepted |
| Chat.ContainsAny | app.py:98 | `any(k in s for k in ks)`: true iff some keyword is a substring |
| Chat.NeedsWebSearch | app.py:88-98 | True iff one of the 31 keywords occurs in the lower-cased message |
| Chat.NeedsWebSearchIgnoresCase | app.py:97-98 | A message and its lower-cased form trigger alike |
| Chat.NoSearchForEmpty | app.py:88-98 | The empty message never triggers |
| Chat.SearchSurvivesExtension | app.py:88-98 | Text added before or after a triggering message keeps it triggering |
| Chat.KeywordInsideWord | app.py:90-98 | Keywords match inside words: "Snow" triggers through "now" |
| Chat.NumberedSnoc | app.py:135-138 | One more result adds its block, numbered after the others |
| Chat.NumberedAppend | app.py:135-138 | The blocks of two lists are the blocks of each, the second numbered on from the first |
| Chat.EntriesSplit | app.py:135-138 | The j-th result's block sits, numbered first + j, between the blocks before it and after it |
| Chat.FormatSearchContext | app.py:129-142 | The loop builds header, numbered blocks in input order and trailer; the result is empty iff there are no results |
| Chat.SessionTitle | app.py:330 | The message itself up to 50 characters, else its first 50 characters and "..."; at most 53 long |
| Chat.Priming | app.py:374-388 | The two priming turns exactly when the history is empty |
| Chat.FinalUserMessage | app.py:397 | The search context, if any, in front of the message |
| Chat.BuildMessages | app.py:370-402 | Priming turns, then the history in order, then the user turn; length is history + 1, plus 2 without history |
| Chat.RequestBodyFor | app.py:406-453 | The Anthropic body iff the id contains `anthropic.claude`; the `max_tokens` body iff not that and an OpenAI or Gemma marker occurs without an inferenceConfig marker; `inferenceConfig` otherwise; the messages and 4096 tokens in each |
| Chat.UnknownFamilyDefaults | app.py:444-453 | An id of no known family gets the `inferenceConfig` body |
| Chat.Lookup | app.py:463 | A decoded object's member: present iff some member has the key, and the value is that of the last member with the key, as `json.loads` keeps it |
| Chat.PyIn | app.py:473-476 | `in` on an object tests its keys; it raises exactly when the container is not an object, list or string |
| Chat.Get | app.py:479 | `.get` exists only on objects; on an object it gives the member's value when the key is present and the default otherwise |
| Chat.ExtractReply | app.py:467-484 | A Claude id reads `content[0].text` and an OpenAI or Gemma id reads `choices[0].message.content`, whatever the shape; other ids are read by shape: `output` with `message`, then `content`, then the rendering (the lemmas below state each branch for every object body) |
| Chat.ContentReplyRead | app.py:476-481 | A response with `content`, and no `output` or an `output` without `message`: a list gives its first element's `text`, or that element's rendering when it has none; an empty list raises IndexError and a non-object first element AttributeError; other content is the reply as is |
| Chat.ClaudeReplyRead | app.py:467-469 | A well-formed Claude response yields its text |
| Chat.ChoicesReplyRead | app.py:470-472 | A well-formed OpenAI or Gemma response yields its message content |
| Chat.OutputReplyRead | app.py:473-475 | For any id outside the two named families and any object with `output`: an `output` holding `message` is read along `output.message.content[0].text`, and an `output` that is not a container raises TypeError |
| Chat.NovaReplyRead | app.py:473-475 | The Nova response shape yields its text |
| Chat.ShapeIgnoredForClaude | app.py:467-469 | A Nova-shaped response under a Claude id raises KeyError |
| Chat.FallbackToRendering | app.py:482-484 | An object with no `content`, and no `output` or an `output` without `message`, yields its text rendering |
| Validation.ValidateRegistration | app.py:193-203 | The first failing check in order: stripped username under 3, stripped e-mail without '@', password under 6. Accepted iff all pass, with stripped username and e-mail and the raw password |
| Validation.RegistrationIgnoresSurroundingSpace | app.py:193-194 | Surrounding whitespace of username and e-mail never changes the outcome |
| Validation.BlankPasswordAccepted | app.py:195-203 | The password is not stripped: six spaces pass the check |
| Validation.ValidateChatMessage | app.py:318-323 | Accepted iff the message is not all whitespace, as the stripped message; otherwise "Message is required" with status 400 |
| Validation.ValidateCodeRequest | app.py:601-615 | Empty stripped code is refused first. Then the lower-cased language (python by default) must be python or javascript; any other is refused with its lower-cased name in the message |
| Validation.LanguageIgnoresCase | app.py:602 | A language and its lower-cased form are treated alike |
| Validation.DefaultLanguageIsPython | app.py:602-611 | A request without a language runs as Python |

## Left out

- The HTTP calls to the payment provider (checkout, subscription fetch and cancel, portal URL), the Bedrock `invoke_model` call, the Google search call and the model listing: these are network I/O.
- Password hashing, login sessions and the subprocess sandbox that runs submitted code: these are effects outside the logic modelled.
- Signature.VerifySignature: HMAC-SHA256 is an uninterpreted function parameter. The secret is taken as already-encoded bytes, so the UTF-8 encoding of the configured string is not modelled. The constant-time property of the comparison is not modelled either.
- The wall clock (`datetime.now()`, and now plus 30 days in `log_usage`) is passed in as parameters.
- Floating-point figures are left out:
  - `percentage`, `overage_cost` and `estimated_bill` in `get_usage_stats`;
  - the `should_show_warning` threshold;
  - the plan price;
  - the temperature and top-p of the request bodies.
  For the same reason, the division by a zero quota in `percentage` is not modelled.
- Concurrency: `check_quota` and `log_usage` are separate transactions that can interleave. They are modelled as sequential calls, and concurrent webhook deliveries as sequential deliveries.
- Ledger.Store.ProcessWebhookEvent: MySQL's handling of the values written by the handlers is not modelled, so a handler UPDATE never fails in the model. Not modelled:
  - the coercion of the raw `ends_at` string into a TIMESTAMP column;
  - strict-mode errors;
  - a custom `user_id` of another JSON kind (a boolean, a float, an object), which is not representable in `Attributes`/`Meta`.
- Ledger.JournalFault: the journal's uniqueness is modelled as exact string equality of event ids. The UNIQUE index on `lemonsqueezy_event_id` uses the case- and accent-insensitive, space-padding `utf8mb4_unicode_ci` collation (database.py:116, 124), so the source also refuses an id such as "ABC" or "abc " once "abc" is journaled; the model commits it. The column lengths are not modelled either: an event type over 100 characters, or a `data.id` or event id over 255 (database.py:114-116), fails in strict mode but is committed by the model. The same holds for Ledger.Store.ProcessWebhookEvent.
- Ledger.Store.ResolveUser: e-mail comparison is exact. The case- and accent-insensitive collation of the `users` table is not modelled.
- Ledger.Store.ResolveUser: `customer_id` is modelled as a string, as the `lemonsqueezy_customer_id` column stores it. An integer `customer_id` of 0 is falsy in Python, and MySQL compares a number with that column numerically. Neither is modelled, because the model cannot carry an integer customer id.
- Ledger.UserKey: only a non-empty string of decimal digits reads as an integer. MySQL also accepts a sign and surrounding spaces, and refusing a string such as "12abc" relies on strict mode. In the model every other string is refused as unreadable.
- Ledger.Store.LogUsage: `requests_used`, `monthly_quota` and `tokens_used` are 32-bit INT columns (database.py:48-49, 97). The counter here is unbounded, so the strict-mode error when `requests_used + 1` passes 2^31 − 1 is not modelled. The same holds for the request counts in Quota.HardCapAdmissions and Quota.OverageAdmitsAll.
- Quota.CreatedAdmits: PRO_PLAN_INCLUDED_REQUESTS is read from the environment (lemonsqueezy.py:25). The model fixes it at its default, 2000. With the variable set to 0, the source reports the next request after `subscription_created` as overage, and the lemma does not cover that configuration.
- Ledger.Store.AddAccount: only the e-mail's uniqueness is modelled. Username, password hash and timestamps are not part of the billing row.
- Ledger.Store.LogUsage: the action type is one of the five values of the `action_type` enumeration. What MySQL does with any other string is not modelled.
- Chat.NeedsWebSearch: `Text.Lower` lower-cases ASCII letters only. Python's `str.lower` also folds non-ASCII letters; for example, the Kelvin sign becomes 'k', which can complete "look up". The same holds for the language name in `Validation.ValidateCodeRequest`.
- MysqlDatetime.ToMysqlDatetime has two limits:
  - years are always rendered with four digits, whereas `strftime("%Y")` on glibc does not zero-pad years below 1000;
  - only ASCII digits are accepted, whereas `strptime` also accepts other Unicode decimal digits.
- Chat.ExtractReply has three limits:
  - `str()` of a decoded value is the `show` parameter;
  - JSON numbers are integers only;
  - list indices are non-negative, so Python's negative indexing is not modelled.
- Validation: a field sent as JSON null makes `.strip()` or `.lower()` raise. Only a missing field is modelled, and it takes the default.
- `perform_web_search`, the session and history storage of the chat endpoint, and the schema migration scripts are not part of this model.
