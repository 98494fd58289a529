/**
 * The custodial wallet store of bot/index.js: a module-level dictionary from a
 * chat user's id to the key pair the bot generated for that user. It is loaded
 * once at start-up, written by saveWallet, read by getWallet, and the
 * createwallet command only ever adds an entry for a user who has none.
 */
module Wallets {
  import opened Common

  /** Telegram's numeric user id (a JavaScript object key, coerced to the
      same string on every lookup, so distinct ids stay distinct keys). */
  type UserId = int

  /** The record saveWallet stores: the address and its private key. */
  datatype WalletRec = WalletRec(address: string, privateKey: string)

  type Store = map<UserId, WalletRec>

  /** One `createwallet` request: who asked, and the key pair that
      ethers.Wallet.createRandom would hand back for it. */
  datatype CreateRequest = CreateRequest(user: UserId, generated: WalletRec)

  /** The store after one `createwallet` request. */
  function AfterCreate(store: Store, req: CreateRequest): (s: Store)
    ensures req.user in s
    ensures req.user in store ==> s == store
    ensures req.user !in store ==> s[req.user] == req.generated
    ensures s.Keys == store.Keys + {req.user}
    ensures forall u :: u in store ==> u in s && s[u] == store[u]
  {
    if req.user in store then store else store[req.user := req.generated]
  }

  /** The store after a run of `createwallet` requests, oldest first. */
  function AfterCreates(store: Store, reqs: seq<CreateRequest>): Store
    decreases |reqs|
  {
    if reqs == [] then store else AfterCreates(AfterCreate(store, reqs[0]), reqs[1..])
  }

  function Requesters(reqs: seq<CreateRequest>): set<UserId>
  {
    set i | 0 <= i < |reqs| :: reqs[i].user
  }

  /** No run of `createwallet` requests ever changes or removes a wallet that
      is already stored: one wallet per user, never rotated. */
  lemma {:induction false} CreatesNeverOverwrite(store: Store, reqs: seq<CreateRequest>)
    ensures forall u :: u in store ==> u in AfterCreates(store, reqs) && AfterCreates(store, reqs)[u] == store[u]
    decreases |reqs|
  {
    if reqs != [] {
      CreatesNeverOverwrite(AfterCreate(store, reqs[0]), reqs[1..]);
    }
  }

  /** Exactly the users already stored and the users who asked have a wallet afterwards. */
  lemma {:induction false} CreatesKeys(store: Store, reqs: seq<CreateRequest>)
    ensures AfterCreates(store, reqs).Keys == store.Keys + Requesters(reqs)
    decreases |reqs|
  {
    if reqs != [] {
      CreatesKeys(AfterCreate(store, reqs[0]), reqs[1..]);
      assert Requesters(reqs) == {reqs[0].user} + Requesters(reqs[1..]) by {
        forall u | u in Requesters(reqs) ensures u in {reqs[0].user} + Requesters(reqs[1..]) {
          var i :| 0 <= i < |reqs| && reqs[i].user == u;
          if i > 0 { assert reqs[1..][i - 1] == reqs[i]; }
        }
        forall u | u in Requesters(reqs[1..]) ensures u in Requesters(reqs) {
          var i :| 0 <= i < |reqs[1..]| && reqs[1..][i].user == u;
          assert reqs[i + 1] == reqs[1..][i];
        }
      }
    }
  }

  /** A user without a wallet ends up with the key pair generated at that
      user's FIRST request; later requests by the same user are no-ops. */
  lemma {:induction false} FirstRequestWins(store: Store, reqs: seq<CreateRequest>, i: nat)
    requires i < |reqs|
    requires reqs[i].user !in store
    requires forall j :: 0 <= j < i ==> reqs[j].user != reqs[i].user
    ensures reqs[i].user in AfterCreates(store, reqs)
    ensures AfterCreates(store, reqs)[reqs[i].user] == reqs[i].generated
    decreases |reqs|
  {
    var next := AfterCreate(store, reqs[0]);
    if i == 0 {
      CreatesNeverOverwrite(next, reqs[1..]);
    } else {
      assert reqs[1..][i - 1] == reqs[i];
      forall j | 0 <= j < i - 1 ensures reqs[1..][j].user != reqs[i].user {
        assert reqs[1..][j] == reqs[j + 1];
      }
      FirstRequestWins(next, reqs[1..], i - 1);
    }
  }

  /** The in-memory `wallets` object of bot/index.js. */
  class WalletStore {
    var wallets: Store

    /** Start-up (bot/index.js:16-20): the persisted dictionary when the
        wallet file exists, otherwise no wallets at all. */
    constructor Load(persisted: Option<Store>)
      ensures wallets == (if persisted.Some? then persisted.value else map[])
      ensures persisted.None? ==> forall u :: GetWallet(u) == None
    {
      wallets := if persisted.Some? then persisted.value else map[];
    }

    /** saveWallet (bot/index.js:22-25): overwrites one user's entry. */
    method SaveWallet(user: UserId, rec: WalletRec)
      modifies this
      ensures wallets == old(wallets)[user := rec]
      ensures GetWallet(user) == Some(rec)
      ensures forall u :: u != user ==> GetWallet(u) == old(GetWallet(u))
    {
      wallets := wallets[user := rec];
    }

    /** getWallet (bot/index.js:27-29): the stored record, or nothing. */
    function GetWallet(user: UserId): (r: Option<WalletRec>)
      reads this
      ensures r.Some? <==> user in wallets
      ensures r.Some? ==> r.value == wallets[user]
    {
      if user in wallets then Some(wallets[user]) else None
    }

    /** The store-changing part of the createwallet command
        (bot/index.js:54-62): a wallet is saved only for a user who has none.
        `created` tells whether the "new wallet" reply is sent rather than
        "You already have a wallet!". */
    method CreateWallet(req: CreateRequest) returns (created: bool)
      modifies this
      ensures created <==> old(GetWallet(req.user)).None?
      ensures wallets == AfterCreate(old(wallets), req)
      ensures !created ==> wallets == old(wallets)
    {
      if GetWallet(req.user).Some? {
        return false;
      }
      SaveWallet(req.user, req.generated);
      created := true;
    }
  }
}
