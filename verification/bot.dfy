/** The bot's access policy, credit ledger and ban list (bot.py:18-28 and the
    handlers at bot.py:81-228). Each handler is a pure transition from the
    ledger state, the caller's chat id and the message to the next state and
    the kind of reply sent. The HTTP lookup and the address search are inputs
    (`Env`), so the contracts can say exactly when they matter. */
module Bot {
  import opened Options
  import opened Json
  import PyText
  import Lookup
  import Format

  /** The fixed owner chat ids. */
  const Owners: set<int> := {1362919387, 859230426}

  /** `is_owner`: membership in the configured list, nothing else. */
  predicate IsOwner(id: int): (b: bool)
    ensures b <==> id == 1362919387 || id == 859230426
  {
    id in Owners
  }

  /** `user_credits` and the keys of `banned_users` (whose value is always "Banned"). */
  datatype State = State(credits: map<int, int>, banned: set<int>)

  /** Both dictionaries start empty when the process starts. */
  const Initial: State := State(map[], {})

  /** `user_credits.get(id, 0)`. */
  function Balance(s: State, id: int): int {
    if id in s.credits then s.credits[id] else 0
  }

  /** Ban enforcement: only listed ids are refused, and owners never are,
      even when listed. */
  predicate Blocked(s: State, id: int): (b: bool)
    ensures b ==> id in s.banned
    ensures IsOwner(id) ==> !b
    ensures id in s.banned && !IsOwner(id) ==> b
  {
    id in s.banned && !IsOwner(id)
  }

  /** The outside world a handler may consult: the lookup API, queried with
      the stripped number, the guardian search on an address, and whether
      Telegram accepts the results message built from some blocks (it refuses
      Markdown it cannot parse and over-long messages, and then the send raises). */
  datatype Env = Env(api: string -> Lookup.HttpOutcome, guardian: Format.Guardian,
                     delivers: seq<Format.Block> -> bool)

  datatype Allowance = Unlimited | Credits(amount: int)

  /** One line of the user list: the balance and the derived ban status. */
  datatype UserEntry = UserEntry(credits: int, banned: bool)

  /** The kinds of reply the handlers send, with the values they report. */
  datatype Reply =
    | YouAreBanned
    | OwnerWelcome
    | Welcome
    | NoCredits
    | InvalidNumber
    | Results(blocks: seq<Format.Block>)
    | HandlerRaised
    | NotFound
    | OwnerOnly
    | Usage
    | InvalidArgs   // "Invalid arguments." from /add and /remove, "Invalid chatid." from /check, /ban and /unban
    | Added(target: int, amount: int, balance: int)
    | Removed(target: int, amount: int, balance: int)
    | CreditsOf(target: int, balance: int)
    | YourBalance(allowance: Allowance)
    | UserBanned(target: int)
    | UserUnbanned(target: int)
    | NotBanned(target: int)
    | NoUsers
    | UserTable(entries: map<int, UserEntry>)
    | NoBannedUsers
    | BannedTable(ids: set<int>)

  datatype Transition = Transition(next: State, reply: Reply)

  // ---------------------------------------------------------------- /start

  /** `start`: greets the caller and registers an unknown non-owner with 0 credits. */
  function Start(s: State, caller: int): (r: Transition)
    ensures Blocked(s, caller) ==> r == Transition(s, YouAreBanned)
    ensures IsOwner(caller) ==> r == Transition(s, OwnerWelcome)
    ensures !Blocked(s, caller) && !IsOwner(caller) ==>
      && r.next.banned == s.banned
      && r.next.credits.Keys == s.credits.Keys + {caller}
      && r.next.credits - {caller} == s.credits - {caller}
      && Balance(r.next, caller) == Balance(s, caller)
      && (r.reply == Welcome <==> Balance(s, caller) > 0)
      && (r.reply == NoCredits <==> Balance(s, caller) <= 0)
  {
    if Blocked(s, caller) then Transition(s, YouAreBanned)
    else if IsOwner(caller) then Transition(s, OwnerWelcome)
    else
      var s' := if caller in s.credits then s else s.(credits := s.credits[caller := 0]);
      Transition(s', if s'.credits[caller] <= 0 then NoCredits else Welcome)
  }

  // ---------------------------------------------------------------- lookups

  /** The number sent, as the handler reads it. */
  function Query(text: string): string {
    PyText.Strip(text)
  }

  /** The caller gets past every check that precedes the lookup. */
  predicate Admitted(s: State, caller: int, text: string) {
    && !Blocked(s, caller)
    && PyText.IsDigitString(Query(text))
    && (IsOwner(caller) || Balance(s, caller) > 0)
  }

  /** The normalised lookup outcome for the number in `text`. */
  function LookupOf(env: Env, text: string): Option<seq<Json>> {
    Lookup.FetchNumberInfo(env.api(Query(text)))
  }

  /** `handle_message`: gate, look up, charge one credit for a non-empty
      result, format it and send it. Formatting and sending happen after the
      charge, so a record set the formatter rejects, or a results message
      Telegram refuses, still costs the credit. */
  function HandleMessage(s: State, caller: int, text: string, env: Env): (r: Transition)
    ensures Blocked(s, caller) ==> r == Transition(s, YouAreBanned)
    ensures !Blocked(s, caller) && !PyText.IsDigitString(Query(text)) ==>
      r == Transition(s, InvalidNumber)
    ensures (!Blocked(s, caller) && PyText.IsDigitString(Query(text))
      && !IsOwner(caller) && Balance(s, caller) <= 0) ==> r == Transition(s, NoCredits)
    // who may be charged, and when
    ensures r.next.banned == s.banned
    ensures r.next.credits - {caller} == s.credits - {caller}
    ensures IsOwner(caller) ==> r.next == s
    ensures r.next != s <==> Admitted(s, caller, text) && !IsOwner(caller) && Lookup.Found(LookupOf(env, text))
    ensures r.next != s ==>
      && caller in s.credits && caller in r.next.credits
      && r.next.credits[caller] == s.credits[caller] - 1
      && r.next.credits[caller] >= 0
    // what is sent back
    ensures Admitted(s, caller, text) && !Lookup.Found(LookupOf(env, text)) ==> r.reply == NotFound
    ensures Admitted(s, caller, text) && Lookup.Found(LookupOf(env, text)) ==>
      && (r.reply.Results? || r.reply == HandlerRaised)
      && (r.reply.Results? <==>
            && (forall i :: 0 <= i < |LookupOf(env, text).value| ==>
                  Format.Formattable(LookupOf(env, text).value[i]))
            && env.delivers(Format.FormatResults(LookupOf(env, text).value, env.guardian).value))
    ensures r.reply.Results? ==>
      && Lookup.Found(LookupOf(env, text))
      && |r.reply.blocks| == |LookupOf(env, text).value|
      && Format.FormatResults(LookupOf(env, text).value, env.guardian) == Some(r.reply.blocks)
      && env.delivers(r.reply.blocks)
  {
    if Blocked(s, caller) then Transition(s, YouAreBanned)
    else if !PyText.IsDigitString(Query(text)) then Transition(s, InvalidNumber)
    else if !IsOwner(caller) && Balance(s, caller) <= 0 then Transition(s, NoCredits)
    else
      var results := LookupOf(env, text);
      if !Lookup.Found(results) then Transition(s, NotFound)
      else
        var s' := if IsOwner(caller) then s
                  else s.(credits := s.credits[caller := s.credits[caller] - 1]);
        assert !IsOwner(caller) ==> s'.credits[caller] != s.credits[caller];
        match Format.FormatResults(results.value, env.guardian)
        case Some(blocks) =>
          if env.delivers(blocks) then Transition(s', Results(blocks))
          else Transition(s', HandlerRaised)
        case None => Transition(s', HandlerRaised)
  }

  // ---------------------------------------------------------------- owner commands

  /** Integer parsing of every argument; None if any `int()` call would raise. */
  function ParseAll(args: seq<string>): (r: Option<seq<int>>)
    ensures r.Some? <==> forall i :: 0 <= i < |args| ==> PyText.ParseInt(args[i]).Some?
    ensures r.Some? ==> |r.value| == |args|
    ensures r.Some? ==> forall i :: 0 <= i < |args| ==> PyText.ParseInt(args[i]) == Some(r.value[i])
  {
    if |args| == 0 then Some([])
    else
      var head := PyText.ParseInt(args[0]);
      var tail := ParseAll(args[1..]);
      assert forall i :: 1 <= i < |args| ==> args[i] == args[1..][i - 1];
      if head.None? || tail.None? then None
      else Some([head.value] + tail.value)
  }

  /** The checks every owner command makes before acting, in the source's
      order: owner, exact argument count, integer arguments. */
  datatype Gated = Refused(reply: Reply) | Accepted(values: seq<int>)

  function Gate(caller: int, args: seq<string>, arity: nat): (r: Gated)
    ensures !IsOwner(caller) ==> r == Refused(OwnerOnly)
    ensures IsOwner(caller) && |args| != arity ==> r == Refused(Usage)
    ensures IsOwner(caller) && |args| == arity && ParseAll(args).None? ==> r == Refused(InvalidArgs)
    ensures r.Accepted? <==> IsOwner(caller) && |args| == arity && ParseAll(args).Some?
    ensures r.Accepted? ==> |r.values| == arity
    ensures r.Accepted? ==> forall i :: 0 <= i < arity ==> PyText.ParseInt(args[i]) == Some(r.values[i])
  {
    if !IsOwner(caller) then Refused(OwnerOnly)
    else if |args| != arity then Refused(Usage)
    else match ParseAll(args)
      case None => Refused(InvalidArgs)
      case Some(v) => Accepted(v)
  }

  /** `add_credit`: target balance (default 0) plus amount; the amount may be negative. */
  function AddCredit(s: State, caller: int, args: seq<string>): (r: Transition)
    ensures Gate(caller, args, 2).Refused? ==> r == Transition(s, Gate(caller, args, 2).reply)
    ensures r.next.banned == s.banned
    ensures Gate(caller, args, 2).Accepted? ==>
      var t := Gate(caller, args, 2).values[0];
      var a := Gate(caller, args, 2).values[1];
      && r.next.credits - {t} == s.credits - {t}
      && t in r.next.credits
      && r.next.credits[t] == Balance(s, t) + a
      && r.reply == Added(t, a, r.next.credits[t])
  {
    match Gate(caller, args, 2)
    case Refused(e) => Transition(s, e)
    case Accepted(v) =>
      var t, a := v[0], v[1];
      var b := Balance(s, t) + a;
      Transition(s.(credits := s.credits[t := b]), Added(t, a, b))
  }

  /** `remove_credit`: target balance (default 0) minus amount, clamped at 0. */
  function RemoveCredit(s: State, caller: int, args: seq<string>): (r: Transition)
    ensures Gate(caller, args, 2).Refused? ==> r == Transition(s, Gate(caller, args, 2).reply)
    ensures r.next.banned == s.banned
    ensures Gate(caller, args, 2).Accepted? ==>
      var t := Gate(caller, args, 2).values[0];
      var a := Gate(caller, args, 2).values[1];
      && r.next.credits - {t} == s.credits - {t}
      && t in r.next.credits
      && r.next.credits[t] >= 0
      && (Balance(s, t) - a >= 0 ==> r.next.credits[t] == Balance(s, t) - a)
      && (Balance(s, t) - a < 0 ==> r.next.credits[t] == 0)
      && r.reply == Removed(t, a, r.next.credits[t])
  {
    match Gate(caller, args, 2)
    case Refused(e) => Transition(s, e)
    case Accepted(v) =>
      var t, a := v[0], v[1];
      var b := if Balance(s, t) - a < 0 then 0 else Balance(s, t) - a;
      Transition(s.(credits := s.credits[t := b]), Removed(t, a, b))
  }

  /** `check_credit`: an owner reads any balance, defaulting to 0. */
  function CheckCredit(s: State, caller: int, args: seq<string>): (r: Transition)
    ensures r.next == s
    ensures Gate(caller, args, 1).Refused? ==> r.reply == Gate(caller, args, 1).reply
    ensures Gate(caller, args, 1).Accepted? ==>
      var t := Gate(caller, args, 1).values[0];
      r.reply == CreditsOf(t, Balance(s, t))
  {
    match Gate(caller, args, 1)
    case Refused(e) => Transition(s, e)
    case Accepted(v) => Transition(s, CreditsOf(v[0], Balance(s, v[0])))
  }

  /** `my_credits`: any caller, banned or not, reads their own balance. */
  function MyCredits(s: State, caller: int): (r: Transition)
    ensures r.next == s
    ensures r.reply.YourBalance?
    ensures r.reply.allowance == Unlimited <==> IsOwner(caller)
    ensures !IsOwner(caller) ==> r.reply.allowance == Credits(Balance(s, caller))
  {
    Transition(s, YourBalance(if IsOwner(caller) then Unlimited else Credits(Balance(s, caller))))
  }

  /** `ban_user`: zero the balance and mark the target banned, together. */
  function BanUser(s: State, caller: int, args: seq<string>): (r: Transition)
    ensures Gate(caller, args, 1).Refused? ==> r == Transition(s, Gate(caller, args, 1).reply)
    ensures Gate(caller, args, 1).Accepted? ==>
      var t := Gate(caller, args, 1).values[0];
      && r.next.credits - {t} == s.credits - {t}
      && t in r.next.credits && r.next.credits[t] == 0
      && r.next.banned == s.banned + {t}
      && r.reply == UserBanned(t)
  {
    match Gate(caller, args, 1)
    case Refused(e) => Transition(s, e)
    case Accepted(v) =>
      var t := v[0];
      Transition(State(s.credits[t := 0], s.banned + {t}), UserBanned(t))
  }

  /** `unban_user`: drop the ban marker only; a target that was not banned is reported. */
  function UnbanUser(s: State, caller: int, args: seq<string>): (r: Transition)
    ensures r.next.credits == s.credits
    ensures Gate(caller, args, 1).Refused? ==> r == Transition(s, Gate(caller, args, 1).reply)
    ensures Gate(caller, args, 1).Accepted? ==>
      var t := Gate(caller, args, 1).values[0];
      && r.next.banned == s.banned - {t}
      && (t in s.banned ==> r.reply == UserUnbanned(t))
      && (t !in s.banned ==> r == Transition(s, NotBanned(t)))
  {
    match Gate(caller, args, 1)
    case Refused(e) => Transition(s, e)
    case Accepted(v) =>
      var t := v[0];
      if t in s.banned then Transition(s.(banned := s.banned - {t}), UserUnbanned(t))
      else Transition(s, NotBanned(t))
  }

  /** `user_list`: every ledger entry with its ban status. */
  function UserList(s: State, caller: int): (r: Transition)
    ensures r.next == s
    ensures !IsOwner(caller) ==> r.reply == OwnerOnly
    ensures IsOwner(caller) && |s.credits| == 0 ==> r.reply == NoUsers
    ensures IsOwner(caller) && |s.credits| > 0 ==>
      && r.reply.UserTable?
      && r.reply.entries.Keys == s.credits.Keys
      && forall id :: id in r.reply.entries ==>
           r.reply.entries[id] == UserEntry(s.credits[id], id in s.banned)
  {
    if !IsOwner(caller) then Transition(s, OwnerOnly)
    else if |s.credits| == 0 then Transition(s, NoUsers)
    else Transition(s, UserTable(map id | id in s.credits :: UserEntry(s.credits[id], id in s.banned)))
  }

  /** `banned_list`: every banned id. */
  function BannedList(s: State, caller: int): (r: Transition)
    ensures r.next == s
    ensures !IsOwner(caller) ==> r.reply == OwnerOnly
    ensures IsOwner(caller) && |s.banned| == 0 ==> r.reply == NoBannedUsers
    ensures IsOwner(caller) && |s.banned| > 0 ==> r.reply == BannedTable(s.banned)
  {
    if !IsOwner(caller) then Transition(s, OwnerOnly)
    else if |s.banned| == 0 then Transition(s, NoBannedUsers)
    else Transition(s, BannedTable(s.banned))
  }
}
