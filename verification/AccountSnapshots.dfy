/**
  The last part of a reconciliation cycle: every user with a reconciled order gets one snapshot of
  the account's balances, and an error with one user does not stop the others.
 */
module AccountSnapshots {
  import opened Wrappers
  import opened Text

  /** A balance as the exchange reports it; an amount that is missing or no decimal is none. */
  datatype RawBalance = RawBalance(asset: string, free: Option<real>, locked: Option<real>)

  datatype Balance = Balance(asset: string, free: real, locked: real)

  datatype Snapshot = Snapshot(userId: string, balances: seq<Balance>)

  /** The balances channel; without an answer the message may still have been published. */
  class BalanceChannel {
    var messages: seq<Snapshot>

    method Publish(message: Snapshot) returns (done: bool)
      modifies this
      ensures messages == old(messages) || messages == old(messages) + [message]
      ensures done ==> messages == old(messages) + [message]
    {
      var happens: bool, heard: bool := *, *;
      if happens {
        messages := messages + [message];
      }
      done := happens && heard;
    }
  }

  function NormalBalance(b: RawBalance): Balance {
    Balance(Upper(b.asset), b.free.GetOr(0.0), b.locked.GetOr(0.0))
  }

  /** Those with an asset, in their order. */
  function Balances(raw: seq<RawBalance>): seq<Balance> {
    if raw == [] then []
    else
      var (fewer, last) := (Balances(raw[..|raw| - 1]), raw[|raw| - 1]);
      if last.asset == "" then fewer else fewer + [NormalBalance(last)]
  }

  method NormalizeAccountBalances(balances: seq<RawBalance>) returns (out: seq<Balance>)
    ensures out == Balances(balances)
  {
    out := [];
    for i := 0 to |balances|
      invariant out == Balances(balances[..i])
    {
      assert balances[..i + 1][..i] == balances[..i];
      if balances[i].asset != "" {
        out := out + [NormalBalance(balances[i])];
      }
    }
    assert balances[..|balances|] == balances;
  }

  /** `getCredential`: loaded once per user and cycle, if it can be loaded. */
  method GetCredential(loaded: set<string>, userId: string, loads: string -> bool)
    returns (credentials: Option<set<string>>)
    ensures credentials.Some? <==> userId in loaded || loads(userId)
    ensures credentials.Some? ==> credentials.value == loaded + {userId}
  {
    if userId in loaded {
      return Some(loaded);
    }
    credentials := if loads(userId) then Some(loaded + {userId}) else None;
  }

  predicate DistinctUsers(users: seq<string>) {
    forall i, j :: 0 <= i < j < |users| ==> users[i] != users[j]
  }

  predicate IsSent(sent: seq<Snapshot>, userId: string) {
    exists j :: 0 <= j < |sent| && sent[j].userId == userId
  }

  type Accounts = string -> Option<seq<RawBalance>>

  /**
    What was sent is for the first users, at most once each, with their own balances;
    a user counted as published is among them.
   */
  ghost predicate AccountsSent(sent: seq<Snapshot>, users: seq<string>, outcomes: seq<bool>, accounts: Accounts) {
    && |outcomes| <= |users|
    && (forall j :: 0 <= j < |sent| ==>
          && accounts(sent[j].userId).Some?
          && sent[j].balances == Balances(accounts(sent[j].userId).value))
    && (forall i, j :: 0 <= i < j < |sent| ==> sent[i].userId != sent[j].userId)
    && (forall j :: 0 <= j < |sent| ==> sent[j].userId in users[..|outcomes|])
    && (forall k :: 0 <= k < |outcomes| && outcomes[k] ==> IsSent(sent, users[k]))
  }

  lemma SendOne(sent: seq<Snapshot>, users: seq<string>, outcomes: seq<bool>, accounts: Accounts,
                more: seq<Snapshot>, outcome: bool)
    requires AccountsSent(sent, users, outcomes, accounts) && DistinctUsers(users) && |outcomes| < |users|
    requires |more| <= 1 && (outcome ==> more != [])
    requires more != [] ==>
               var user := users[|outcomes|];
               accounts(user).Some? && more[0] == Snapshot(user, Balances(accounts(user).value))
    ensures AccountsSent(sent + more, users, outcomes + [outcome], accounts)
  {
    hide Balances;
    var n := |outcomes|;
    assert users[..n + 1] == users[..n] + [users[n]];
    forall k | 0 <= k <= n && (outcomes + [outcome])[k]
      ensures IsSent(sent + more, users[k])
    {
      if k < n {
        var j :| 0 <= j < |sent| && sent[j].userId == users[k];
        assert (sent + more)[j].userId == users[k];
      } else {
        assert (sent + more)[|sent|].userId == users[k];
      }
    }
  }

  lemma NothingSent(users: seq<string>, accounts: Accounts)
    ensures AccountsSent([], users, [], accounts)
  {
  }

  /** The loop over the reconciled users; their credentials have been loaded before. */
  method PublishAccounts(channel: BalanceChannel, users: seq<string>, loaded: set<string>, loads: string -> bool,
                         accounts: Accounts)
    returns (accountsPublished: nat, errors: nat, ghost outcomes: seq<bool>)
    requires DistinctUsers(users) && forall k :: 0 <= k < |users| ==> users[k] in loaded
    modifies channel
    ensures |outcomes| == |users| && old(channel.messages) <= channel.messages
    ensures AccountsSent(channel.messages[|old(channel.messages)|..], users, outcomes, accounts)
    ensures accountsPublished == multiset(outcomes)[true] && errors == multiset(outcomes)[false]
  {
    hide AccountsSent, Balances, DistinctUsers;
    accountsPublished, errors, outcomes := 0, 0, [];
    ghost var sent: seq<Snapshot> := [];
    NothingSent(users, accounts);
    for k := 0 to |users|
      invariant |outcomes| == k && channel.messages == old(channel.messages) + sent
      invariant AccountsSent(sent, users, outcomes, accounts)
      invariant accountsPublished == multiset(outcomes)[true] && errors == multiset(outcomes)[false]
    {
      ghost var before := channel.messages;
      var done := PublishAccount(channel, users[k], loaded, loads, accounts);
      ghost var more := channel.messages[|before|..];
      assert channel.messages == before + more;
      SendOne(sent, users, outcomes, accounts, more, done);
      sent := sent + more;
      outcomes := outcomes + [done];
      if done {
        accountsPublished := accountsPublished + 1;
      } else {
        errors := errors + 1;
      }
    }
  }

  /** One user; any error is caught. */
  method PublishAccount(channel: BalanceChannel, userId: string, loaded: set<string>, loads: string -> bool,
                        accounts: Accounts)
    returns (done: bool)
    requires userId in loaded
    modifies channel
    ensures old(channel.messages) <= channel.messages
    ensures var more := channel.messages[|old(channel.messages)|..];
            && |more| <= 1 && (done ==> more != [])
            && (more != [] ==>
                  accounts(userId).Some? && more[0] == Snapshot(userId, Balances(accounts(userId).value)))
  {
    var credentials := GetCredential(loaded, userId, loads);
    assert credentials.Some?;
    var account := accounts(userId);
    if account.None? {
      return false;
    }
    var balances := NormalizeAccountBalances(account.value);
    done := channel.Publish(Snapshot(userId, balances));
  }
}
