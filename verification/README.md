# Lookup bot: credit ledger, ban list and lookup shaping

A Dafny model of the logic inside a Telegram bot that looks up phone numbers for its users. Owners are a fixed set of chat ids. Every non-owner has an integer credit balance. One credit pays for one successful lookup. Owners can add, remove and check credits, ban and unban users, and list the users and the banned ids.

The model has seven modules:

- `Options`: the Some/None wrapper.
- `PyText`: the Python string built-ins the bot relies on. These are `str.strip()`, `str.isdigit()`, `int(str)` (ASCII digits, one sign, single underscores between digits) and `str(int)`.
- `Json`: decoded JSON values, Python truthiness, and `dict.get`.
- `Lookup`: `fetch_number_info`'s response-shape normalisation. The HTTP outcome (transport error, or status plus decoded body) is an input.
- `Format`: `format_results`'s field selection. Each record becomes a `Block` of eight selected values and a number that starts at 1. The `S/O`/`W/O` regular-expression search is a parameter, `Guardian`, that returns the captured name or None.
- `Bot`: the state (`user_credits` and the ban set) and every handler as a pure transition `(State, caller, input) -> (State, Reply)`. Replies are kinds that carry the reported values, not message texts.
- `Session`: the command table, runs of events, and lemmas that relate several handler calls. Each event carries the answers of the lookup API, the guardian search and Telegram's acceptance check at the moment it is handled.

Behaviour of the code that the model keeps as written:

- A Python `x or y or "N/A"` chain takes the first *truthy* value. So an empty string, `0`, `false` or `null` falls through just like a missing key. The model does not take the first *present* value.
- The lookup envelope is exactly the key `"data"` holding a list. Any other object becomes one record, even `{}` or `{"data": null}`, and so it costs a credit.
- `/add` accepts a negative amount, so a balance can become negative. Balances stay non-negative under `/remove` and lookups, but not under `/add`.
- `handle_message` deducts the credit before it calls `format_results` and sends the results. `format_results` raises when a record is not an object. It also raises when the address it searches is not a string. The send with `parse_mode="Markdown"` (bot.py:117) raises when Telegram refuses the message, for example a field value with an unmatched `_`, `*` or backtick, or a message over the length limit. In all these cases the credit stays deducted and no results are sent. The reply kind `HandlerRaised` stands for this. Whether Telegram accepts a given results message is the input `Env.delivers`.
- A father value that is literally `"N/A"` is treated as unresolved, so the address is still searched.

## Model

| member | source | states |
|---|---|---|
| PyText.Strip | bot.py:103 | the result has no whitespace at either end, and it is a slice of the input with only whitespace around it |
| PyText.StripIdempotent | bot.py:103 | stripping twice is the same as stripping once |
| PyText.IsDigitString | bot.py:104 | a text that passes `isdigit()` is a non-empty run of digits with no surrounding whitespace |
| PyText.ParseInt | bot.py:130-131 | `int()` succeeds exactly when the stripped text is an optional sign followed by digits with single underscores between them, and the result is that numeral's signed decimal value; a plain digit string parses to its decimal value |
| PyText.ParseTrimmed | bot.py:130-131 | on text without surrounding whitespace, `int()` is exactly the numeral grammar and its value |
| PyText.ParseAcceptsPaddedSign | bot.py:130-131 | `" +5 "` parses to 5 |
| PyText.ParseAcceptsNegativeZero | bot.py:130-131 | `"-0"` parses to 0 |
| PyText.ParseAcceptsUnderscores | bot.py:130-131 | `"1_000"` parses to 1000 |
| PyText.ParseRefusesDoubleUnderscore | bot.py:130-131 | `"1__0"` is refused |
| PyText.ParseRefusesDoubleSign | bot.py:130-131 | `"--1"` is refused |
| PyText.ParseRefusesInnerSign | bot.py:130-131 | `"1-2"` is refused |
| PyText.ParseRefusesSpaceAfterSign | bot.py:130-131 | `"- 1"` is refused |
| PyText.ShowNegativeIsNumeral | bot.py:130-133 | `str(n)` of a negative n is a minus sign followed by digits, with value n |
| PyText.ParseShowRoundTrip | bot.py:130-133 | `int(str(n)) == n` for every integer n |
| Json.Truthy | bot.py:52-59 | a JSON value is falsy exactly when it is null, false, zero, the empty string, the empty list or the empty object |
| Lookup.FetchNumberInfo | bot.py:31-46 | a result exists exactly for status 200 with an object or list body; a list body is returned as is; a `"data"` list is unwrapped; any other object becomes a one-record list |
| Lookup.Found | bot.py:114 | `if results:` holds exactly for a non-empty record list |
| Lookup.EnvelopeTransparent | bot.py:39-43 | `{"data": xs}` and the bare list `xs` normalise to the same record list |
| Lookup.BareObjectIsFound | bot.py:41 | every object without a `"data"` list counts as a non-empty result, including `{}` |
| Lookup.FailureIsNotFound | bot.py:33-46 | a transport error or a non-200 status is never a successful lookup |
| Lookup.ShapeExamples | bot.py:38-44 | `{"data":[X]}` gives `[X]`, `Y` gives `[Y]`, `[Z]` gives `[Z]`, and `42` gives None |
| Format.Pick | bot.py:52-59 | a fallback chain yields its first truthy candidate, and "N/A" when none is truthy |
| Format.Father | bot.py:53-64 | the father comes from `fname`, then `father_name`; the address is searched only when that chain gives "N/A" and the address is not "N/A"; a match gives the stripped capture; a non-string address raises |
| Format.FormatRecord | bot.py:51-77 | a record formats exactly when it is an object whose address, if searched, is a string; the block carries the given number |
| Format.FieldSelection | bot.py:52-59 | each block field is its chain's result; the alternate number comes from `alt` then `alt_mobile`; the other fields each come from one key |
| Format.TraverseFrom | bot.py:50-51 | records are processed in order and numbered consecutively; the whole result fails when any record fails |
| Format.FormatResults | bot.py:49-78 | there is one block per record, block i has number i + 1, and the result exists exactly when every record is formattable |
| Format.DirectFatherWins | bot.py:53 | when the father chain resolves to something other than "N/A", that value is shown and the address is not searched |
| Format.LiteralNAIsSearched | bot.py:61-64 | an `fname` of "N/A" still triggers the address search |
| Format.EmptyStringFallsThrough | bot.py:53 | an empty `fname` falls through to `father_name` |
| Format.GuardianFromAddressExample | bot.py:52-64 | for the address "S/O John Doe, Main St", the father is "John Doe" and the absent fields are "N/A" |
| Bot.IsOwner | bot.py:27-28 | the owners are exactly the two configured chat ids |
| Bot.Blocked | bot.py:100 | only an id on the ban list is refused, and an owner never is, even when listed (the same test guards `/start` at bot.py:83) |
| Bot.Start | bot.py:81-96 | a banned non-owner and an owner change nothing; any other caller is registered with balance 0 if unknown; nothing else changes; the reply depends on whether the balance is positive |
| Bot.HandleMessage | bot.py:98-119 | a banned non-owner, a non-digit text and a non-positive balance are each refused with no change; the ban set and all other entries never change; the state changes exactly when a non-owner's lookup is non-empty, and then the balance drops by one and stays non-negative; an owner's entry is never touched; results are sent exactly when every record formats and Telegram accepts the message, and otherwise the handler raises after the charge |
| Bot.ParseAll | bot.py:129-131 | the arguments parse exactly when every `int()` call succeeds, and the values match the arguments one by one |
| Bot.Gate | bot.py:123-131 | the checks run in this order: owner only, then exact argument count, then integer arguments; a command acts only when all three pass |
| Bot.AddCredit | bot.py:122-135 | a refused command changes nothing; otherwise the target's balance becomes the old balance (default 0) plus the amount, and no other entry and no ban changes |
| Bot.RemoveCredit | bot.py:137-150 | the target's balance becomes the old balance minus the amount, clamped at 0, so it is never negative; nothing else changes |
| Bot.CheckCredit | bot.py:152-164 | read-only; reports the target's balance, defaulting to 0 |
| Bot.MyCredits | bot.py:166-169 | read-only and answered even for banned callers; "Unlimited" exactly for owners, otherwise the balance (default 0) |
| Bot.BanUser | bot.py:172-185 | one transition sets the target's balance to 0 and adds the target to the ban set; nothing else changes |
| Bot.UnbanUser | bot.py:187-202 | only the ban marker is removed and balances are untouched; a target that was not banned is reported and nothing changes |
| Bot.UserList | bot.py:205-216 | read-only; lists every ledger entry with its balance and ban status, or says there are no users |
| Bot.BannedList | bot.py:218-228 | read-only; lists exactly the banned ids, or says there are none |
| Session.StepPreservesInv | bot.py:172-202 | every handler keeps the ban set inside the ledger's keys |
| Session.RunPreservesInv | bot.py:172-202 | any sequence of handled events keeps that invariant |
| Session.ReachableInv | bot.py:22-24 | every state reachable from the empty start satisfies the invariant |
| Session.Step | bot.py:276-286 | dispatching any event never drops a ledger entry; only `/ban` and `/unban` change the ban list; an owner-only command from a non-owner is refused and changes nothing |
| Session.NonOwnerStep | bot.py:81-119 | a non-owner's message never changes the ban set or another user's entry, never raises a balance, and never makes the caller's balance negative |
| Session.NonOwnerRunOnlySpends | bot.py:81-119 | a run of non-owner messages leaves the ban set alone and raises no balance |
| Session.RejectedMessageIgnoresLookup | bot.py:99-113 | a message refused before the lookup has the same outcome whatever the lookup API and guardian search would do |
| Session.FailedLookupIsFree | bot.py:113-119 | a None or empty lookup result leaves the whole state unchanged |
| Session.ChargeIgnoresDelivery | bot.py:114-117 | whether Telegram accepts the results message never changes the state, and a refused send of formatted results is reported as a raised handler |
| Session.OwnerIgnoresBan | bot.py:100 | an owner on the ban list is served exactly as if they were not on it |
| Session.ParseAllShown | bot.py:130-131 | printed integers used as arguments parse back to the same integers |
| Session.AddThenRemove | bot.py:132-147 | adding n and then removing n restores any non-negative balance, and leaves the other entries and the ban set as they were |
| Session.AddThenRemoveClampsNegative | bot.py:132-147 | a balance of -1 comes back as 0 after adding 1 and removing 1 |
| Session.BanThenCheck | bot.py:161-182 | right after a ban, the target is banned and a check reports 0 |
| Session.BanThenUnban | bot.py:181-197 | a ban followed by an unban leaves the target unbanned with a zero balance |
| Session.AddWithOneArgument | bot.py:126-128 | `/add` with one argument is a usage error and the state is unchanged |

## Left out

- The webhook server, the handler registration, `set_webhook`, `main` and the environment configuration (bot.py:253-296) are I/O and framework wiring. The registration appears only as the `Session.Command` cases.
- The HTTP request in `fetch_number_info` is left out: its URL template, timeout and disabled certificate check are network I/O. Its result is the `HttpOutcome` input, which arrives through `Env.api`.
- The regular expression `(S/O|W/O)\s+([A-Za-z ]+)` (bot.py:62) is not modelled because its case-insensitive Unicode matching has no counterpart here. `Env.guardian` stands for it, and only the `strip()` of its capture is modelled.
- Message texts, emoji, Markdown, the `str()` rendering of field values, the separator and the joining of blocks are presentation. Replies are kinds that carry the values they report.
- `help_command` (bot.py:231-251) sends fixed text that depends on the caller being an owner, and it touches no state.
- `str.isdigit()` and `int()` accept Unicode digits, and `isdigit()` also accepts superscripts. Only ASCII digits are modelled.
- JSON floats are modelled as reals, which gives the same truthiness. `NaN`, `Infinity` and duplicate object keys are decoder details and are not modelled.
- The user list and the banned list are modelled as a map and a set. Their display order follows Python dict insertion order, which is not modelled.
- Bot.AddCredit, Bot.RemoveCredit, Bot.BanUser, Bot.UnbanUser: a failure to send the success reply inside the `try` block is caught and answered with "Invalid arguments." (bot.py:134-135, bot.py:149-150) or "Invalid chatid." (bot.py:184-185, bot.py:201-202) after the ledger or ban list was already changed. Telegram delivery is not modelled, so the model always gives the success reply. `Bot.CheckCredit` changes nothing, so its "Invalid chatid." path (bot.py:163-164) differs only in the reply.
- The model handles events one at a time and each event sees the state left by the previous one. This is the assumption that the `Application` built at bot.py:273 dispatches updates sequentially, which it does by default since no concurrent updates are configured.
- Bot.HandleMessage: Telegram's Markdown parser and message-length limit are not modelled. Whether a results message is accepted is the input `Env.delivers`. A failed send of any other reply (a refusal, "No details found") changes no state and is not modelled.
- Format.FormatRecord: its contract covers formattability and numbering only. The value of each field is stated by `Format.FieldSelection`.
