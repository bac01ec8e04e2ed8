/** The handler table (bot.py:276-286) as a dispatcher over commands, runs of
    messages from a starting state, and the properties relating several
    handler calls. */
module Session {
  import opened Options
  import PyText
  import Lookup
  import Bot
  import Format

  /** The inbound events: the registered commands and free text. */
  datatype Command =
    | Start
    | Text(text: string)
    | Add(args: seq<string>)
    | Remove(args: seq<string>)
    | Check(args: seq<string>)
    | Credits
    | Ban(args: seq<string>)
    | Unban(args: seq<string>)
    | UList
    | BList

  /** One inbound event: who sent it, what it is, and the answers the lookup
      API and the guardian search would give at that moment. */
  datatype Event = Event(caller: int, cmd: Command, env: Bot.Env)

  /** Commands only an owner may use. */
  predicate OwnerOnlyCommand(c: Command) {
    c.Add? || c.Remove? || c.Check? || c.Ban? || c.Unban? || c.UList? || c.BList?
  }

  /** Dispatch one event to its handler. No handler deletes a ledger entry,
      only `/ban` and `/unban` touch the ban list, and owner-only commands
      from anyone else are refused without effect. */
  function Step(s: Bot.State, e: Event): (r: Bot.Transition)
    ensures s.credits.Keys <= r.next.credits.Keys
    ensures !e.cmd.Ban? && !e.cmd.Unban? ==> r.next.banned == s.banned
    ensures OwnerOnlyCommand(e.cmd) && !Bot.IsOwner(e.caller) ==> r == Bot.Transition(s, Bot.OwnerOnly)
  {
    match e.cmd
    case Start => Bot.Start(s, e.caller)
    case Text(t) => Bot.HandleMessage(s, e.caller, t, e.env)
    case Add(a) => Bot.AddCredit(s, e.caller, a)
    case Remove(a) => Bot.RemoveCredit(s, e.caller, a)
    case Check(a) => Bot.CheckCredit(s, e.caller, a)
    case Credits => Bot.MyCredits(s, e.caller)
    case Ban(a) => Bot.BanUser(s, e.caller, a)
    case Unban(a) => Bot.UnbanUser(s, e.caller, a)
    case UList => Bot.UserList(s, e.caller)
    case BList => Bot.BannedList(s, e.caller)
  }

  /** The state after handling `events` one after another. */
  function Run(s: Bot.State, events: seq<Event>): Bot.State
    decreases |events|
  {
    if |events| == 0 then s else Run(Step(s, events[0]).next, events[1..])
  }

  /** Every banned id also has a ledger entry: banning always writes both. */
  predicate Inv(s: Bot.State) {
    s.banned <= s.credits.Keys
  }

  lemma StepPreservesInv(s: Bot.State, e: Event)
    requires Inv(s)
    ensures Inv(Step(s, e).next)
  {
  }

  lemma {:induction false} RunPreservesInv(s: Bot.State, events: seq<Event>)
    requires Inv(s)
    ensures Inv(Run(s, events))
    decreases |events|
  {
    if |events| > 0 {
      StepPreservesInv(s, events[0]);
      RunPreservesInv(Step(s, events[0]).next, events[1..]);
    }
  }

  /** In every state the bot can reach, the ban list lies inside the ledger. */
  lemma ReachableInv(events: seq<Event>)
    ensures Inv(Run(Bot.Initial, events))
  {
    RunPreservesInv(Bot.Initial, events);
  }

  /** What a non-owner can do to the state: never touch the ban list or anyone
      else's entry, never raise a balance, never make one negative. */
  lemma NonOwnerStep(s: Bot.State, e: Event)
    requires !Bot.IsOwner(e.caller)
    ensures Step(s, e).next.banned == s.banned
    ensures Step(s, e).next.credits - {e.caller} == s.credits - {e.caller}
    ensures forall id :: Bot.Balance(Step(s, e).next, id) <= Bot.Balance(s, id)
    ensures Bot.Balance(s, e.caller) >= 0 ==> Bot.Balance(Step(s, e).next, e.caller) >= 0
  {
  }

  predicate NonOwnerEvents(events: seq<Event>) {
    forall i :: 0 <= i < |events| ==> !Bot.IsOwner(events[i].caller)
  }

  /** A run of messages from non-owners only spends credits: no balance rises
      and the ban list stays as it was. */
  lemma {:induction false} NonOwnerRunOnlySpends(s: Bot.State, events: seq<Event>, id: int)
    requires NonOwnerEvents(events)
    ensures Run(s, events).banned == s.banned
    ensures Bot.Balance(Run(s, events), id) <= Bot.Balance(s, id)
    decreases |events|
  {
    if |events| > 0 {
      NonOwnerStep(s, events[0]);
      NonOwnerRunOnlySpends(Step(s, events[0]).next, events[1..], id);
    }
  }

  /** A message that is turned away never consults the lookup API or the
      guardian search: any two environments give the same outcome. */
  lemma RejectedMessageIgnoresLookup(s: Bot.State, caller: int, text: string, env1: Bot.Env, env2: Bot.Env)
    requires !Bot.Admitted(s, caller, text)
    ensures Bot.HandleMessage(s, caller, text, env1) == Bot.HandleMessage(s, caller, text, env2)
  {
  }

  /** A lookup that finds nothing leaves the whole state unchanged, whoever asks. */
  lemma FailedLookupIsFree(s: Bot.State, caller: int, text: string, env: Bot.Env)
    requires !Lookup.Found(Bot.LookupOf(env, text))
    ensures Bot.HandleMessage(s, caller, text, env).next == s
  {
  }

  /** The credit is taken before the results are sent: whether Telegram
      accepts the message never changes the state, and a refused send of
      formatted results is reported as a raised handler. */
  lemma ChargeIgnoresDelivery(s: Bot.State, caller: int, text: string, env: Bot.Env,
                              delivers: seq<Format.Block> -> bool)
    ensures Bot.HandleMessage(s, caller, text, env).next
         == Bot.HandleMessage(s, caller, text, env.(delivers := delivers)).next
    ensures var results := Bot.LookupOf(env, text);
      && Bot.Admitted(s, caller, text) && Lookup.Found(results)
      && Format.FormatResults(results.value, env.guardian).Some?
      && !env.delivers(Format.FormatResults(results.value, env.guardian).value)
      ==> Bot.HandleMessage(s, caller, text, env).reply == Bot.HandlerRaised
  {
  }

  /** Owners are served exactly as if they were not on the ban list. */
  lemma OwnerIgnoresBan(s: Bot.State, owner: int, text: string, env: Bot.Env)
    requires Bot.IsOwner(owner)
    ensures Bot.HandleMessage(s, owner, text, env)
         == Bot.HandleMessage(s.(banned := s.banned - {owner}), owner, text, env)
                .(next := s)
  {
  }

  /** Arguments that are the printed forms of integers parse back to exactly those integers. */
  lemma ParseAllShown(xs: seq<int>)
    ensures Bot.ParseAll(seq(|xs|, i requires 0 <= i < |xs| => PyText.ShowInt(xs[i]))) == Some(xs)
  {
    var args := seq(|xs|, i requires 0 <= i < |xs| => PyText.ShowInt(xs[i]));
    forall i | 0 <= i < |xs| ensures PyText.ParseInt(args[i]) == Some(xs[i]) {
      PyText.ParseShowRoundTrip(xs[i]);
    }
    var r := Bot.ParseAll(args);
    assert r.value == xs;
  }

  /** `/add x n` then `/remove x n` restores a non-negative balance, whatever the sign of n. */
  lemma AddThenRemove(s: Bot.State, owner: int, x: int, n: int)
    requires Bot.IsOwner(owner)
    requires Bot.Balance(s, x) >= 0
    ensures var args := [PyText.ShowInt(x), PyText.ShowInt(n)];
      var s1 := Bot.AddCredit(s, owner, args).next;
      var s2 := Bot.RemoveCredit(s1, owner, args).next;
      && Bot.Balance(s2, x) == Bot.Balance(s, x)
      && s2.credits - {x} == s.credits - {x}
      && s2.banned == s.banned
  {
    var args := [PyText.ShowInt(x), PyText.ShowInt(n)];
    ParseAllShown([x, n]);
    assert args == seq(2, i requires 0 <= i < 2 => PyText.ShowInt([x, n][i]));
  }

  /** Outside the clamping bound the round trip fails: a balance of -1 comes back as 0. */
  lemma AddThenRemoveClampsNegative(owner: int)
    requires Bot.IsOwner(owner)
    ensures var s := Bot.State(map[7 := -1], {});
      var args := [PyText.ShowInt(7), PyText.ShowInt(1)];
      Bot.Balance(Bot.RemoveCredit(Bot.AddCredit(s, owner, args).next, owner, args).next, 7) == 0
  {
  }

  /** Right after `/ban x`, `/check x` reports 0 and x is banned. */
  lemma BanThenCheck(s: Bot.State, owner: int, x: int)
    requires Bot.IsOwner(owner)
    ensures var s1 := Bot.BanUser(s, owner, [PyText.ShowInt(x)]).next;
      && x in s1.banned
      && Bot.CheckCredit(s1, owner, [PyText.ShowInt(x)]).reply == Bot.CreditsOf(x, 0)
  {
    ParseAllShown([x]);
    assert [PyText.ShowInt(x)] == seq(1, i requires 0 <= i < 1 => PyText.ShowInt([x][i]));
  }

  /** `/ban x` then `/unban x` leaves x unbanned with a zero balance. */
  lemma BanThenUnban(s: Bot.State, owner: int, x: int)
    requires Bot.IsOwner(owner)
    ensures var s1 := Bot.BanUser(s, owner, [PyText.ShowInt(x)]).next;
      var s2 := Bot.UnbanUser(s1, owner, [PyText.ShowInt(x)]).next;
      && x !in s2.banned
      && Bot.Balance(s2, x) == 0
      && s2.banned == s.banned - {x}
  {
    ParseAllShown([x]);
    assert [PyText.ShowInt(x)] == seq(1, i requires 0 <= i < 1 => PyText.ShowInt([x][i]));
  }

  /** `/add` with one argument is a usage error and the ledger is untouched. */
  lemma AddWithOneArgument(s: Bot.State, owner: int, arg: string)
    requires Bot.IsOwner(owner)
    ensures Bot.AddCredit(s, owner, [arg]) == Bot.Transition(s, Bot.Usage)
  {
  }
}
