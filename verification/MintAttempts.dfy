/**
 One batch mint attempt: the shared in-flight set, the loop that resolves wallets and claims keys,
 and the release of every guard. Other attempts claim and release keys whenever this one awaits;
 what they hold at each of its turns is a parameter.
 */
module MintAttempts {
  import opened Wrappers
  import opened MintKeys

  datatype Pending = Pending(serial: string, windowMs: int, energy: real)

  function KeyOf(p: Pending): string {
    Field(p.serial, p.windowMs)
  }

  datatype WalletReply = Wallet(address: string, valid: bool) | NoWallet | LookupFailed {
    predicate Usable() {
      Wallet? && valid
    }
  }

  datatype Input = Input(mint: Pending, wallet: string)

  // ----- which entries of a batch are published -----

  /**
   A batch as the claim loop sees it: the key of each entry, whether it can be paid out, and the keys
   that other attempts hold when its turn comes.
   */
  datatype Batch = Batch(keys: seq<string>, usable: seq<bool>, others: seq<set<string>>) {
    ghost predicate Valid() {
      |keys| == |usable| == |others|
    }

    /** Entry `i` asks for `k`, can be paid out, and no other attempt holds `k` by then. */
    predicate Asks(i: int, k: string) {
      0 <= i < |keys| && i < |usable| && i < |others| && usable[i] && keys[i] == k && k !in others[i]
    }
  }

  /** The entry asks for its key, and no earlier entry took it. */
  predicate Publishes(b: Batch, i: nat)
    requires b.Valid() && i < |b.keys|
  {
    b.Asks(i, b.keys[i]) && forall j :: 0 <= j < i ==> !b.Asks(j, b.keys[i])
  }

  /** The published positions among the first n. */
  function Chosen(b: Batch, n: nat): (r: seq<nat>)
    requires b.Valid() && n <= |b.keys|
    ensures Within(b, r) && forall j :: 0 <= j < |r| ==> r[j] < n
  {
    if n == 0 then []
    else
      var before := Chosen(b, n - 1);
      if Publishes(b, n - 1) then before + [n - 1] else before
  }

  ghost predicate Within(b: Batch, r: seq<nat>) {
    forall j :: 0 <= j < |r| ==> r[j] < |b.keys|
  }

  ghost function KeysAt(b: Batch, r: seq<nat>): set<string>
    requires Within(b, r)
  {
    set j | 0 <= j < |r| :: b.keys[r[j]]
  }

  ghost predicate AllPublish(b: Batch, r: seq<nat>)
    requires b.Valid()
  {
    forall j :: 0 <= j < |r| ==> r[j] < |b.keys| && Publishes(b, r[j])
  }

  /** No key twice. */
  ghost predicate Distinct(b: Batch, r: seq<nat>) {
    Within(b, r) && forall i, j :: 0 <= i < j < |r| ==> b.keys[r[i]] != b.keys[r[j]]
  }

  lemma {:induction false} ChosenPublish(b: Batch, n: nat)
    requires b.Valid() && n <= |b.keys|
    ensures AllPublish(b, Chosen(b, n))
  {
    if n > 0 { ChosenPublish(b, n - 1); }
  }

  lemma {:induction false} PublishedIsChosen(b: Batch, n: nat, i: nat) returns (j: nat)
    requires b.Valid() && i < n <= |b.keys| && Publishes(b, i)
    ensures j < |Chosen(b, n)| && Chosen(b, n)[j] == i
    decreases n
  {
    if i == n - 1 {
      j := |Chosen(b, n - 1)|;
    } else {
      j := PublishedIsChosen(b, n - 1, i);
    }
  }

  /** The first entry that asks for a key. */
  lemma {:induction false} FirstAsk(b: Batch, i: nat, k: string) returns (f: nat)
    requires b.Asks(i, k)
    ensures f <= i && b.Asks(f, k) && forall j :: 0 <= j < f ==> !b.Asks(j, k)
  {
    if j: nat :| j < i && b.Asks(j, k) {
      f := FirstAsk(b, j, k);
    } else {
      f := i;
    }
  }

  /** Published are exactly the keys that some entry with a usable wallet finds free. */
  lemma ChosenKeys(b: Batch, n: nat, k: string)
    requires b.Valid() && n <= |b.keys|
    ensures k in KeysAt(b, Chosen(b, n)) <==> exists i :: 0 <= i < n && b.Asks(i, k)
  {
    var r := Chosen(b, n);
    ChosenPublish(b, n);
    if exists i :: 0 <= i < n && b.Asks(i, k) {
      var i :| 0 <= i < n && b.Asks(i, k);
      var f := FirstAsk(b, i, k);
      var j := PublishedIsChosen(b, n, f);
      assert b.keys[r[j]] == k;
    }
    assert forall j :: 0 <= j < |r| ==> b.Asks(r[j], b.keys[r[j]]);
  }

  /** What the claim loop tests is what `Publishes` says. */
  lemma ClaimStep(b: Batch, n: nat)
    requires b.Valid() && n < |b.keys|
    ensures Publishes(b, n) <==> b.usable[n] && b.keys[n] !in b.others[n] + KeysAt(b, Chosen(b, n))
  {
    ChosenKeys(b, n, b.keys[n]);
  }

  /** No key is published twice, repeated entries included. */
  lemma {:induction false} ChosenDistinct(b: Batch, n: nat)
    requires b.Valid() && n <= |b.keys|
    ensures Distinct(b, Chosen(b, n))
  {
    if n > 0 {
      ChosenDistinct(b, n - 1);
      ChosenPublish(b, n - 1);
      var before := Chosen(b, n - 1);
      assert forall j :: 0 <= j < |before| ==> b.Asks(before[j], b.keys[before[j]]);
    }
  }

  lemma KeysPush(b: Batch, r: seq<nat>, i: nat)
    requires i < |b.keys| && Within(b, r)
    ensures Within(b, r + [i]) && KeysAt(b, r + [i]) == KeysAt(b, r) + {b.keys[i]}
  {
    var s := r + [i];
    assert s[|r|] == i && forall j :: 0 <= j < |r| ==> s[j] == r[j];
  }

  // ----- the attempt -----

  ghost function BatchOf(pending: seq<Pending>, wallets: seq<WalletReply>, others: seq<set<string>>): (b: Batch)
    requires |wallets| == |pending| == |others|
    ensures b.Valid() && |b.keys| == |pending| && b.others == others
  {
    Batch(seq(|pending|, i requires 0 <= i < |pending| => KeyOf(pending[i])),
          seq(|wallets|, i requires 0 <= i < |wallets| => wallets[i].Usable()), others)
  }

  /** The inputs are the chosen entries, each with its own wallet. */
  ghost predicate Builds(inputs: seq<Input>, pending: seq<Pending>, wallets: seq<WalletReply>, chosen: seq<nat>)
    requires |wallets| == |pending|
  {
    && |inputs| == |chosen|
    && forall j :: 0 <= j < |inputs| ==>
         && chosen[j] < |pending| && wallets[chosen[j]].Wallet?
         && inputs[j] == Input(pending[chosen[j]], wallets[chosen[j]].address)
  }

  lemma BuildsPush(inputs: seq<Input>, pending: seq<Pending>, wallets: seq<WalletReply>, chosen: seq<nat>, i: nat)
    requires |wallets| == |pending| && i < |pending| && wallets[i].Usable()
    requires Builds(inputs, pending, wallets, chosen)
    ensures Builds(inputs + [Input(pending[i], wallets[i].address)], pending, wallets, chosen + [i])
  {
  }

  /** The items of the published message carry pairwise different idempotency keys. */
  lemma {:induction false} ItemKeysDistinct(inputs: seq<Input>, pending: seq<Pending>, wallets: seq<WalletReply>,
                                            others: seq<set<string>>, i: nat, j: nat)
    requires |wallets| == |pending| == |others| && i < j < |inputs|
    requires Builds(inputs, pending, wallets, Chosen(BatchOf(pending, wallets, others), |pending|))
    ensures IdempotencyKey(inputs[i].mint.serial, inputs[i].mint.windowMs)
         != IdempotencyKey(inputs[j].mint.serial, inputs[j].mint.windowMs)
  {
    var b := BatchOf(pending, wallets, others);
    var chosen := Chosen(b, |pending|);
    ChosenDistinct(b, |pending|);
    assert b.keys[chosen[i]] == Field(inputs[i].mint.serial, inputs[i].mint.windowMs);
    assert b.keys[chosen[j]] == Field(inputs[j].mint.serial, inputs[j].mint.windowMs);
    StripUndoesPrefix(inputs[i].mint.serial, inputs[i].mint.windowMs);
    StripUndoesPrefix(inputs[j].mint.serial, inputs[j].mint.windowMs);
  }

  class MintInFlight {
    var keys: set<string>

    constructor ()
      ensures keys == {}
    {
      keys := {};
    }

    /** Claims the key, or says that another attempt holds it. */
    method TryBegin(key: string) returns (claimed: bool)
      modifies this
      ensures claimed <==> key !in old(keys)
      ensures keys == old(keys) + {key}
    {
      claimed := key !in keys;
      keys := keys + {key};
    }

    /** The drop of a guard. */
    method Release(key: string)
      modifies this
      ensures keys == old(keys) - {key}
    {
      keys := keys - {key};
    }

    /** The guards drop one after another. */
    method ReleaseAll(guards: seq<string>)
      modifies this
      ensures keys == old(keys) - SetOf(guards)
    {
      for i := 0 to |guards|
        invariant keys == old(keys) - SetOf(guards[..i])
      {
        Release(guards[i]);
        assert guards[..i + 1] == guards[..i] + [guards[i]];
      }
      assert guards[..|guards|] == guards;
    }

    /** One entry: claimed for good only with a usable wallet; otherwise the guard drops at once. */
    method ClaimOne(key: string, wallet: WalletReply) returns (kept: bool)
      modifies this
      ensures kept <==> key !in old(keys) && wallet.Usable()
      ensures keys == if kept then old(keys) + {key} else old(keys)
    {
      kept := TryBegin(key);
      if kept && !wallet.Usable() {
        Release(key);
        kept := false;
      }
    }

    /** Other attempts have run: they hold `others` now, and the guards held here are untouched. */
    method Elsewhere(others: set<string>, guards: seq<string>)
      modifies this
      ensures keys == others + SetOf(guards)
    {
      keys := others + SetOf(guards);
    }

    /** The claim loop: a guard is kept for each published entry, every other claim is dropped at once. */
    method ClaimAll(pending: seq<Pending>, wallets: seq<WalletReply>, others: seq<set<string>>)
      returns (inputs: seq<Input>, guards: seq<string>)
      requires |wallets| == |pending| == |others|
      modifies this
      ensures var b := BatchOf(pending, wallets, others); var chosen := Chosen(b, |pending|);
              && Builds(inputs, pending, wallets, chosen) && Guards(b, chosen, guards)
              && keys == (if pending == [] then old(keys) else others[|pending| - 1] + KeysAt(b, chosen))
    {
      ghost var b, chosen: seq<nat> := BatchOf(pending, wallets, others), [];
      inputs, guards := [], [];
      for i := 0 to |pending|
        invariant Claimed(b, pending, wallets, i, chosen, inputs, guards)
        invariant keys == if i == 0 then old(keys) else others[i - 1] + KeysAt(b, chosen)
      {
        GuardSet(b, chosen, guards);
        Elsewhere(others[i], guards);
        ClaimStep(b, i);
        var key := KeyOf(pending[i]);
        assert key == b.keys[i];
        var kept := ClaimOne(key, wallets[i]);
        if kept {
          ClaimedPush(b, pending, wallets, i, chosen, inputs, guards);
          chosen := chosen + [i];
          inputs := inputs + [Input(pending[i], wallets[i].address)];
          guards := guards + [key];
        }
      }
    }

    /**
     Claims, publishes once, reads the reply, and takes exactly its own keys out of the in-flight set.
     `last` is what other attempts hold when the reply is in, apart from the keys guarded here.
     */
    method AttemptMintBatch(pending: seq<Pending>, wallets: seq<WalletReply>, reply: Option<seq<ItemResult>>,
                            others: seq<set<string>>, last: set<string>)
      returns (published: seq<Input>, confirmed: seq<string>)
      requires |wallets| == |pending| == |others|
      requires var b := BatchOf(pending, wallets, others); last !! KeysAt(b, Chosen(b, |pending|))
      modifies this
      ensures Builds(published, pending, wallets, Chosen(BatchOf(pending, wallets, others), |pending|))
      ensures confirmed == if published == [] || reply.None? then [] else SuccessFields(reply.value)
      ensures keys == last
    {
      ghost var b := BatchOf(pending, wallets, others);
      ghost var chosen := Chosen(b, |pending|);
      var guards;
      published, guards := ClaimAll(pending, wallets, others);
      GuardSet(b, chosen, guards);
      Elsewhere(last, guards);
      confirmed := [];
      if published != [] && reply.Some? {
        var c := ClassifyBatchResults(reply.value);
        confirmed := c.confirmedFields;
      }
      ReleaseAll(guards);
    }
  }

  /** The guards are the keys of the chosen entries, in order. */
  ghost predicate Guards(b: Batch, chosen: seq<nat>, guards: seq<string>) {
    Within(b, chosen) && |guards| == |chosen| && forall j :: 0 <= j < |guards| ==> guards[j] == b.keys[chosen[j]]
  }

  /** After `i` entries: the inputs and guards are those of the entries chosen so far. */
  ghost predicate Claimed(b: Batch, pending: seq<Pending>, wallets: seq<WalletReply>, i: nat, chosen: seq<nat>,
                          inputs: seq<Input>, guards: seq<string>)
    requires b.Valid() && |wallets| == |pending| == |b.keys|
  {
    i <= |pending| && chosen == Chosen(b, i) && Builds(inputs, pending, wallets, chosen) && Guards(b, chosen, guards)
  }

  lemma ClaimedPush(b: Batch, pending: seq<Pending>, wallets: seq<WalletReply>, i: nat, chosen: seq<nat>,
                    inputs: seq<Input>, guards: seq<string>)
    requires b.Valid() && |wallets| == |pending| == |b.keys| && i < |pending| && wallets[i].Usable()
    requires Claimed(b, pending, wallets, i, chosen, inputs, guards) && Publishes(b, i)
    ensures Claimed(b, pending, wallets, i + 1, chosen + [i], inputs + [Input(pending[i], wallets[i].address)],
                    guards + [b.keys[i]])
    ensures KeysAt(b, chosen + [i]) == KeysAt(b, chosen) + {b.keys[i]}
  {
    KeysPush(b, chosen, i);
    BuildsPush(inputs, pending, wallets, chosen, i);
    GuardsPush(b, chosen, guards, i);
  }

  lemma GuardsPush(b: Batch, chosen: seq<nat>, guards: seq<string>, i: nat)
    requires Guards(b, chosen, guards) && i < |b.keys|
    ensures Guards(b, chosen + [i], guards + [b.keys[i]])
  {
  }

  lemma GuardSet(b: Batch, chosen: seq<nat>, guards: seq<string>)
    requires Guards(b, chosen, guards)
    ensures SetOf(guards) == KeysAt(b, chosen)
  {
    assert forall k :: k in guards <==> exists j :: 0 <= j < |guards| && guards[j] == k;
  }
}
