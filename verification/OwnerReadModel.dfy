/**
 The owner/wallet read-model: two event streams without a common order, merged into a table of
 meter owners and a table of user wallets. A serial is already canonical; wallets are trimmed.
 */
module OwnerReadModel {
  import opened Wrappers
  import opened Text

  type Serial = string
  type User = nat
  type Wallet = string

  /** SQL NULL is None. */
  datatype OwnerRow = OwnerRow(user: User, wallet: Option<Wallet>)

  datatype Tables = Tables(owners: map<Serial, OwnerRow>, wallets: map<User, Option<Wallet>>)

  const EMPTY_TABLES := Tables(map[], map[])

  function Coalesce<T>(a: Option<T>, b: Option<T>): Option<T> {
    if a.Some? then a else b
  }

  /** `SELECT wallet_address FROM user_wallet_read_model`: NULL for no row and for a NULL column. */
  function WalletOf(wallets: map<User, Option<Wallet>>, u: User): Option<Wallet> {
    if u in wallets then wallets[u] else None
  }

  // ----- payload normalization -----

  /** Neither blank nor padded. */
  predicate Clean(w: Wallet) {
    w != [] && !IsSpace(w[0]) && !IsSpace(w[|w| - 1])
  }

  /** A wallet that is stored is never blank and never carries surrounding space. */
  function WalletOrNone(raw: Option<string>): (w: Option<Wallet>)
    ensures w.Some? ==> Clean(w.value)
    ensures raw.Some? && Clean(raw.value) ==> w == raw
  {
    if raw.None? then None
    else
      var t := Trim(raw.value);
      if t == [] then None else Some(t)
  }

  // ----- the three statements -----

  function Upsert(t: Tables, serial: Serial, user: User, wallet: Option<Wallet>): Tables {
    var excluded := Coalesce(wallet, WalletOf(t.wallets, user));
    var merged := if serial in t.owners && t.owners[serial].user == user
                  then Coalesce(t.owners[serial].wallet, excluded)
                  else excluded;
    t.(owners := t.owners[serial := OwnerRow(user, merged)])
  }

  function UpdateWallet(t: Tables, user: User, wallet: Option<Wallet>): Tables {
    Tables(map s | s in t.owners :: if t.owners[s].user == user then OwnerRow(user, wallet) else t.owners[s],
           t.wallets[user := wallet])
  }

  /** `WHERE user_id = $1 AND wallet_address = $2`: NULL matches nothing. */
  function ClearIfMatches(t: Tables, user: User, wallet: Wallet): Tables {
    Tables(map s | s in t.owners ::
             if t.owners[s] == OwnerRow(user, Some(wallet)) then OwnerRow(user, None) else t.owners[s],
           if WalletOf(t.wallets, user) == Some(wallet) then t.wallets[user := None] else t.wallets)
  }

  // ----- events and the dispatch filters -----

  datatype UserKind = EmailVerified | WalletLinked | Onboarded | PrimaryChanged | WalletUnlinked

  datatype FeedEvent =
    | Meter(serial: Serial, user: User, rawWallet: Option<string>)
    | UserWallet(kind: UserKind, user: User, rawWallet: Option<string>, isPrimary: Option<bool>)
    | Ignored

  function Dispatch(t: Tables, e: FeedEvent): Tables {
    match e
    case Meter(serial, user, raw) => Upsert(t, serial, user, WalletOrNone(raw))
    case UserWallet(kind, user, raw, isPrimary) =>
      var wallet := WalletOrNone(raw);
      if kind.WalletUnlinked? then (if wallet.Some? then ClearIfMatches(t, user, wallet.value) else t)
      else if isPrimary == Some(false) then t
      else if wallet.None? && kind.EmailVerified? then t
      else UpdateWallet(t, user, wallet)
    case Ignored => t
  }

  function Feed(t: Tables, es: seq<FeedEvent>): Tables {
    if es == [] then t else Dispatch(Feed(t, es[..|es| - 1]), es[|es| - 1])
  }

  // ----- the reference: two folds that do not know of each other, and their join -----

  /** The last owner of every serial, from the meter stream alone. */
  function OwnersFold(es: seq<FeedEvent>): map<Serial, User> {
    if es == [] then map[]
    else
      var pre, e := OwnersFold(es[..|es| - 1]), es[|es| - 1];
      if e.Meter? then pre[e.serial := e.user] else pre
  }

  /** The primary wallet of every user, from the user stream alone. */
  function WalletsFold(es: seq<FeedEvent>): map<User, Option<Wallet>> {
    if es == [] then map[] else WalletStep(WalletsFold(es[..|es| - 1]), es[|es| - 1])
  }

  function WalletStep(pre: map<User, Option<Wallet>>, e: FeedEvent): map<User, Option<Wallet>> {
    if !e.UserWallet? then pre
    else
      var wallet := WalletOrNone(e.rawWallet);
      if e.kind.WalletUnlinked? then
        if wallet.Some? && WalletOf(pre, e.user) == wallet then pre[e.user := None] else pre
      else if e.isPrimary == Some(false) || (wallet.None? && e.kind.EmailVerified?) then pre
      else pre[e.user := wallet]
  }

  function Join(owners: map<Serial, User>, wallets: map<User, Option<Wallet>>): map<Serial, OwnerRow> {
    map s | s in owners :: OwnerRow(owners[s], WalletOf(wallets, owners[s]))
  }

  /** Every row of the merged table is what the join would answer. */
  ghost predicate IsJoin(t: Tables) {
    forall s :: s in t.owners ==> t.owners[s].wallet == WalletOf(t.wallets, t.owners[s].user)
  }

  ghost predicate NoMeterWallets(es: seq<FeedEvent>) {
    forall i :: 0 <= i < |es| && es[i].Meter? ==> WalletOrNone(es[i].rawWallet).None?
  }

  /**
   The merged table equals the join of the two folds, for every interleaving of meter events
   without wallets and user events.
   */
  lemma {:induction false} FeedIsJoin(es: seq<FeedEvent>)
    requires NoMeterWallets(es)
    ensures Feed(EMPTY_TABLES, es).wallets == WalletsFold(es)
    ensures Feed(EMPTY_TABLES, es).owners == Join(OwnersFold(es), WalletsFold(es))
  {
    if es != [] {
      var pre := es[..|es| - 1];
      FeedIsJoin(pre);
      DispatchIsJoin(Feed(EMPTY_TABLES, pre), OwnersFold(pre), es[|es| - 1]);
    }
  }

  lemma UpsertIsJoin(t: Tables, owners: map<Serial, User>, serial: Serial, user: User)
    requires t.owners == Join(owners, t.wallets)
    ensures Upsert(t, serial, user, None).owners == Join(owners[serial := user], t.wallets)
  {
  }

  lemma UpdateIsJoin(t: Tables, owners: map<Serial, User>, user: User, wallet: Option<Wallet>)
    requires t.owners == Join(owners, t.wallets)
    ensures var t1 := UpdateWallet(t, user, wallet); t1.owners == Join(owners, t1.wallets)
  {
  }

  lemma ClearIsJoin(t: Tables, owners: map<Serial, User>, user: User, wallet: Wallet)
    requires t.owners == Join(owners, t.wallets)
    ensures var t1 := ClearIfMatches(t, user, wallet); t1.owners == Join(owners, t1.wallets)
  {
  }

  /** One event: the tables change as the two folds do. */
  lemma DispatchIsJoin(t: Tables, owners: map<Serial, User>, e: FeedEvent)
    requires t.owners == Join(owners, t.wallets)
    requires e.Meter? ==> WalletOrNone(e.rawWallet).None?
    ensures Dispatch(t, e).owners
         == Join(if e.Meter? then owners[e.serial := e.user] else owners, Dispatch(t, e).wallets)
  {
    match e
    case Meter(serial, user, raw) => UpsertIsJoin(t, owners, serial, user);
    case UserWallet(kind, user, raw, isPrimary) =>
      var wallet := WalletOrNone(raw);
      UpdateIsJoin(t, owners, user, wallet);
      if wallet.Some? { ClearIsJoin(t, owners, user, wallet.value); }
    case Ignored =>
  }

  /** The projection of a feed on one of its two streams. */
  function Stream(es: seq<FeedEvent>, meter: bool): seq<FeedEvent> {
    if es == [] then []
    else
      var pre, e := Stream(es[..|es| - 1], meter), es[|es| - 1];
      if (meter && e.Meter?) || (!meter && e.UserWallet?) then pre + [e] else pre
  }

  lemma FoldsSnoc(es: seq<FeedEvent>, e: FeedEvent)
    ensures OwnersFold(es + [e]) == if e.Meter? then OwnersFold(es)[e.serial := e.user] else OwnersFold(es)
    ensures WalletsFold(es + [e]) == WalletStep(WalletsFold(es), e)
  {
    assert (es + [e])[..|es|] == es;
  }

  lemma {:induction false} OwnersSeeOneStream(es: seq<FeedEvent>)
    ensures OwnersFold(es) == OwnersFold(Stream(es, true))
  {
    if es != [] {
      var pre, e := es[..|es| - 1], es[|es| - 1];
      OwnersSeeOneStream(pre);
      if e.Meter? { FoldsSnoc(Stream(pre, true), e); }
    }
  }

  lemma {:induction false} WalletsSeeOneStream(es: seq<FeedEvent>)
    ensures WalletsFold(es) == WalletsFold(Stream(es, false))
  {
    if es != [] {
      var pre, e := es[..|es| - 1], es[|es| - 1];
      WalletsSeeOneStream(pre);
      if e.UserWallet? { FoldsSnoc(Stream(pre, false), e); }
    }
  }

  /** Cross-stream order does not matter: any two interleavings of the same streams end in the same tables. */
  lemma InterleavingIrrelevant(a: seq<FeedEvent>, b: seq<FeedEvent>)
    requires NoMeterWallets(a) && NoMeterWallets(b)
    requires Stream(a, true) == Stream(b, true) && Stream(a, false) == Stream(b, false)
    ensures Feed(EMPTY_TABLES, a) == Feed(EMPTY_TABLES, b)
  {
    FeedIsJoin(a);
    FeedIsJoin(b);
    OwnersSeeOneStream(a);
    OwnersSeeOneStream(b);
    WalletsSeeOneStream(a);
    WalletsSeeOneStream(b);
  }

  // ----- what the two folds stand for, in terms of the events -----

  predicate NamesAt(es: seq<FeedEvent>, i: int, serial: Serial, user: User) {
    0 <= i < |es| && es[i].Meter? && es[i].serial == serial && es[i].user == user
  }

  ghost predicate LastMeterAt(es: seq<FeedEvent>, i: int, serial: Serial, user: User) {
    NamesAt(es, i, serial, user) && forall j :: i < j < |es| ==> !(es[j].Meter? && es[j].serial == serial)
  }

  /** The owner of a serial is the user of its last meter event. */
  lemma {:induction false} OwnerIsLast(es: seq<FeedEvent>, serial: Serial, user: User)
    ensures serial in OwnersFold(es) && OwnersFold(es)[serial] == user <==> exists i :: LastMeterAt(es, i, serial, user)
  {
    if es != [] {
      var n := |es| - 1;
      var pre, e := es[..n], es[n];
      OwnerIsLast(pre, serial, user);
      assert forall i :: 0 <= i < n ==> es[i] == pre[i];
      if e.Meter? && e.serial == serial {
        if e.user == user { assert LastMeterAt(es, n, serial, user); }
      } else {
        assert forall i :: LastMeterAt(pre, i, serial, user) ==> LastMeterAt(es, i, serial, user);
        assert forall i :: LastMeterAt(es, i, serial, user) ==> LastMeterAt(pre, i, serial, user);
      }
    }
  }

  /** The event sets the user's wallet: not an unlink, not of a secondary wallet, not a blank verification. */
  predicate Sets(e: FeedEvent, user: User) {
    && e.UserWallet? && e.user == user && e.kind != WalletUnlinked && e.isPrimary != Some(false)
    && !(e.kind == EmailVerified && WalletOrNone(e.rawWallet) == None)
  }

  predicate Unlinks(e: FeedEvent, user: User, wallet: Wallet) {
    e.UserWallet? && e.user == user && e.kind == WalletUnlinked && WalletOrNone(e.rawWallet) == Some(wallet)
  }

  /** Event `i` sets the wallet; no later event sets another or unlinks this one. */
  ghost predicate SetLastAt(es: seq<FeedEvent>, i: int, user: User, wallet: Wallet) {
    && 0 <= i < |es| && Sets(es[i], user) && WalletOrNone(es[i].rawWallet) == Some(wallet)
    && forall j :: i < j < |es| ==> !Sets(es[j], user) && !Unlinks(es[j], user, wallet)
  }

  lemma WalletStepIs(pre: map<User, Option<Wallet>>, e: FeedEvent, user: User)
    ensures var w := WalletOf(pre, user);
            WalletOf(WalletStep(pre, e), user)
            == if Sets(e, user) then WalletOrNone(e.rawWallet)
               else if w.Some? && Unlinks(e, user, w.value) then None else w
  {
  }

  ghost predicate SetLast(es: seq<FeedEvent>, user: User, wallet: Wallet) {
    exists i :: SetLastAt(es, i, user, wallet)
  }

  lemma SetLastSnoc(es: seq<FeedEvent>, user: User, wallet: Wallet)
    requires es != []
    ensures var pre, e := es[..|es| - 1], es[|es| - 1];
            SetLast(es, user, wallet)
            <==> if Sets(e, user) then WalletOrNone(e.rawWallet) == Some(wallet)
                 else !Unlinks(e, user, wallet) && SetLast(pre, user, wallet)
  {
    var n := |es| - 1;
    var pre, e := es[..n], es[n];
    if Sets(e, user) && WalletOrNone(e.rawWallet) == Some(wallet) { assert SetLastAt(es, n, user, wallet); }
    if i :| SetLastAt(es, i, user, wallet) {
      if i < n { assert SetLastAt(pre, i, user, wallet); }
    }
    if i :| SetLastAt(pre, i, user, wallet) {
      if !Sets(e, user) && !Unlinks(e, user, wallet) { assert SetLastAt(es, i, user, wallet); }
    }
  }

  /** The wallet of a user is the one set last and not unlinked since. */
  lemma {:induction false} WalletIsLastSet(es: seq<FeedEvent>, user: User, wallet: Wallet)
    ensures WalletOf(WalletsFold(es), user) == Some(wallet) <==> SetLast(es, user, wallet)
  {
    if es != [] {
      var pre := es[..|es| - 1];
      WalletIsLastSet(pre, user, wallet);
      WalletStepIs(WalletsFold(pre), es[|es| - 1], user);
      SetLastSnoc(es, user, wallet);
    }
  }

  /**
   So a row shows a wallet exactly when the serial's last meter event names a user whose wallet, set last
   and not unlinked since, it is: for every interleaving of wallet-less meter events and user events.
   */
  lemma RowIs(es: seq<FeedEvent>, serial: Serial, user: User, wallet: Wallet)
    requires NoMeterWallets(es)
    ensures Get(Feed(EMPTY_TABLES, es).owners, serial) == Some(OwnerRow(user, Some(wallet)))
       <==> (exists i :: LastMeterAt(es, i, serial, user)) && SetLast(es, user, wallet)
  {
    FeedIsJoin(es);
    OwnerIsLast(es, serial, user);
    WalletIsLastSet(es, user, wallet);
  }

  // ----- meter events that do carry a wallet -----

  /** The wallet edge already says the same as the event, or the same owner's wallet is already set. */
  predicate Agrees(t: Tables, serial: Serial, user: User, wallet: Option<Wallet>) {
    || wallet.None?
    || wallet == WalletOf(t.wallets, user)
    || (serial in t.owners && t.owners[serial].user == user && t.owners[serial].wallet.Some?)
  }

  lemma UpsertKeepsJoinIff(t: Tables, serial: Serial, user: User, wallet: Option<Wallet>)
    requires IsJoin(t)
    ensures IsJoin(Upsert(t, serial, user, wallet)) <==> Agrees(t, serial, user, wallet)
  {
    var t' := Upsert(t, serial, user, wallet);
    assert serial in t'.owners;
    if IsJoin(t') {
      assert t'.owners[serial].wallet == WalletOf(t'.wallets, user);
    }
  }

  lemma UserEventKeepsJoin(t: Tables, e: FeedEvent)
    requires IsJoin(t) && !e.Meter?
    ensures IsJoin(Dispatch(t, e))
  {
  }

  /** Whatever the meter events carry, users and wallets follow the two folds; only a row's wallet can differ. */
  lemma {:induction false} FeedFollowsFolds(es: seq<FeedEvent>)
    ensures var t := Feed(EMPTY_TABLES, es);
            && t.wallets == WalletsFold(es) && t.owners.Keys == OwnersFold(es).Keys
            && forall s :: s in t.owners ==> t.owners[s].user == OwnersFold(es)[s]
  {
    if es != [] { FeedFollowsFolds(es[..|es| - 1]); }
  }

  ghost predicate Joined(es: seq<FeedEvent>) {
    Feed(EMPTY_TABLES, es).owners == Join(OwnersFold(es), WalletsFold(es))
  }

  lemma JoinedIff(es: seq<FeedEvent>)
    ensures Joined(es) <==> IsJoin(Feed(EMPTY_TABLES, es))
  {
    FeedFollowsFolds(es);
    var t, j := Feed(EMPTY_TABLES, es), Join(OwnersFold(es), WalletsFold(es));
    if IsJoin(t) { assert forall s :: s in t.owners ==> t.owners[s] == j[s]; }
    if t.owners == j { assert forall s :: s in t.owners ==> t.owners[s] == j[s]; }
  }

  /** The meter event at position `n` agrees with the tables it meets. */
  ghost predicate AgreesAt(es: seq<FeedEvent>, n: int) {
    0 <= n < |es| && es[n].Meter? ==>
      Agrees(Feed(EMPTY_TABLES, es[..n]), es[n].serial, es[n].user, WalletOrNone(es[n].rawWallet))
  }

  /** One more event keeps the join exactly when it agrees. */
  lemma JoinedStep(es: seq<FeedEvent>, n: nat)
    requires n < |es| && Joined(es[..n])
    ensures Joined(es[..n + 1]) <==> AgreesAt(es, n)
  {
    var pre, e := es[..n], es[n];
    assert es[..n + 1][..n] == pre;
    JoinedIff(pre);
    JoinedIff(es[..n + 1]);
    var t := Feed(EMPTY_TABLES, pre);
    if e.Meter? {
      UpsertKeepsJoinIff(t, e.serial, e.user, WalletOrNone(e.rawWallet));
    } else {
      UserEventKeepsJoin(t, e);
    }
  }

  /**
   For every feed, wallets in meter events or not: the table is the join at every prefix exactly when
   each meter event agrees with the tables it meets.
   */
  lemma {:induction false} FeedStaysJoinedIff(es: seq<FeedEvent>, n: nat)
    requires n <= |es|
    ensures (forall m :: 0 <= m <= n ==> Joined(es[..m])) <==> (forall m :: 0 <= m < n ==> AgreesAt(es, m))
    decreases n
  {
    if n == 0 {
      assert es[..0] == [];
      assert Joined([]);
    } else {
      FeedStaysJoinedIff(es, n - 1);
      if Joined(es[..n - 1]) { JoinedStep(es, n - 1); }
    }
  }

  /** The smallest feed for which the merged table is not the join: a registration that carries a wallet. */
  lemma MeterWalletBreaksJoin()
    ensures var es := [Meter("S", 1, Some("W"))];
            && Feed(EMPTY_TABLES, es).owners["S"] == OwnerRow(1, Some("W"))
            && Join(OwnersFold(es), WalletsFold(es))["S"] == OwnerRow(1, None)
  {
    var e := Meter("S", 1, Some("W"));
    assert [e][..0] == [];
    assert Feed(EMPTY_TABLES, [e][..0]) == EMPTY_TABLES;
    assert OwnersFold([e][..0]) == map[] && WalletsFold([e][..0]) == map[];
    assert Clean("W");
  }

  // ----- a wallet that is set survives meter redelivery -----

  ghost predicate OnlyMeterEventsOf(es: seq<FeedEvent>, serial: Serial, user: User) {
    forall i :: 0 <= i < |es| ==> es[i].Meter? && (es[i].serial == serial ==> es[i].user == user)
  }

  /** No sequence of meter events, with or without wallets, changes a set wallet while the owner stays. */
  lemma {:induction false} SetWalletSurvives(t: Tables, es: seq<FeedEvent>, serial: Serial)
    requires serial in t.owners && t.owners[serial].wallet.Some?
    requires OnlyMeterEventsOf(es, serial, t.owners[serial].user)
    ensures serial in Feed(t, es).owners && Feed(t, es).owners[serial] == t.owners[serial]
    ensures Feed(t, es).wallets == t.wallets
  {
    if es != [] { SetWalletSurvives(t, es[..|es| - 1], serial); }
  }

  // ----- what is stored -----

  ghost predicate AllClean(t: Tables) {
    && (forall s :: s in t.owners && t.owners[s].wallet.Some? ==> Clean(t.owners[s].wallet.value))
    && (forall u :: u in t.wallets && t.wallets[u].Some? ==> Clean(t.wallets[u].value))
  }

  lemma {:induction false} StoredWalletsAreClean(es: seq<FeedEvent>)
    ensures AllClean(Feed(EMPTY_TABLES, es))
  {
    if es != [] {
      var pre := es[..|es| - 1];
      StoredWalletsAreClean(pre);
      DispatchKeepsClean(Feed(EMPTY_TABLES, pre), es[|es| - 1]);
    }
  }

  lemma DispatchKeepsClean(t: Tables, e: FeedEvent)
    requires AllClean(t)
    ensures AllClean(Dispatch(t, e))
  {
  }

  // ----- an unlink -----

  /** Neither the wallet edge nor a row of the user shows the wallet. */
  ghost predicate Gone(t: Tables, user: User, wallet: Wallet) {
    && WalletOf(t.wallets, user) != Some(wallet)
    && forall s :: s in t.owners && t.owners[s].user == user ==> t.owners[s].wallet != Some(wallet)
  }

  /** The event names the wallet for the user, other than to unlink it. */
  predicate Brings(e: FeedEvent, user: User, wallet: Wallet) {
    && !e.Ignored? && e.user == user && WalletOrNone(e.rawWallet) == Some(wallet)
    && (e.UserWallet? ==> !e.kind.WalletUnlinked?)
  }

  lemma DispatchKeepsGone(t: Tables, e: FeedEvent, user: User, wallet: Wallet)
    requires Gone(t, user, wallet) && !Brings(e, user, wallet)
    ensures Gone(Dispatch(t, e), user, wallet)
  {
  }

  /** An unlinked wallet is gone from both tables for good: no event brings it back but one that names it again. */
  lemma {:induction false} UnlinkIsFinal(t: Tables, user: User, wallet: Wallet, es: seq<FeedEvent>)
    requires forall i :: 0 <= i < |es| ==> !Brings(es[i], user, wallet)
    ensures Gone(Feed(ClearIfMatches(t, user, wallet), es), user, wallet)
  {
    if es != [] {
      var pre := es[..|es| - 1];
      UnlinkIsFinal(t, user, wallet, pre);
      DispatchKeepsGone(Feed(ClearIfMatches(t, user, wallet), pre), es[|es| - 1], user, wallet);
    }
  }

  /** The repository object: each method is one statement or one transaction. */
  class OwnerStore {
    var owners: map<Serial, OwnerRow>
    var wallets: map<User, Option<Wallet>>

    function Rows(): Tables
      reads this
    {
      Tables(owners, wallets)
    }

    constructor ()
      ensures Rows() == EMPTY_TABLES
    {
      owners, wallets := map[], map[];
    }

    method UpsertBySerial(serial: Serial, user: User, wallet: Option<Wallet>)
      modifies this`owners
      ensures Rows() == Upsert(old(Rows()), serial, user, wallet)
    {
      var excluded := if wallet.Some? then wallet else if user in wallets then wallets[user] else None;
      if serial in owners && owners[serial].user == user && owners[serial].wallet.Some? {
        return;
      }
      owners := owners[serial := OwnerRow(user, excluded)];
    }

    method UpdateWalletByUser(user: User, wallet: Option<Wallet>) returns (touched: nat)
      modifies this
      ensures Rows() == UpdateWallet(old(Rows()), user, wallet)
      ensures touched == |set s | s in old(owners) && old(owners)[s].user == user|
    {
      wallets := wallets[user := wallet];
      var hit := set s | s in owners && owners[s].user == user;
      owners := map s | s in owners :: if s in hit then OwnerRow(user, wallet) else owners[s];
      touched := |hit|;
    }

    method ClearWalletIfMatches(user: User, wallet: Wallet) returns (cleared: nat)
      modifies this
      ensures Rows() == ClearIfMatches(old(Rows()), user, wallet)
      ensures cleared == |set s | s in old(owners) && old(owners)[s] == OwnerRow(user, Some(wallet))|
    {
      if user in wallets && wallets[user] == Some(wallet) {
        wallets := wallets[user := None];
      }
      var hit := set s | s in owners && owners[s] == OwnerRow(user, Some(wallet));
      owners := map s | s in owners :: if s in hit then OwnerRow(user, None) else owners[s];
      cleared := |hit|;
    }

    method HandleEvent(e: FeedEvent)
      modifies this
      ensures Rows() == Dispatch(old(Rows()), e)
    {
      match e
      case Meter(serial, user, raw) =>
        UpsertBySerial(serial, user, WalletOrNone(raw));
      case UserWallet(kind, user, raw, isPrimary) =>
        var wallet := WalletOrNone(raw);
        if kind.WalletUnlinked? {
          if wallet.Some? {
            var _ := ClearWalletIfMatches(user, wallet.value);
          }
        } else if isPrimary != Some(false) && !(wallet.None? && kind.EmailVerified?) {
          var _ := UpdateWalletByUser(user, wallet);
        }
      case Ignored =>
    }
  }
}
