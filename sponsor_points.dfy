/**
 * Initial points for sponsors (functions/sponsor-initial-points.js): a batch
 * repair over every sponsor's wallet, and a rule run when an establishment is
 * created. The two use different "no points yet" tests: the repair reads
 * `points || 0`, so missing points count as zero; the rule wants `points`
 * strictly equal to 0 and the grant flag unset.
 */
module SponsorPoints {
  import opened Common

  const INITIAL_POINTS: int := 100
  const SPONSOR_TYPE_NAME: string := "Sponsor"

  datatype UserType = UserType(id: string, name: string)

  /** A user document; an empty `userTypeId` is a missing one. */
  datatype User = User(id: string, email: string, userTypeId: string)

  datatype BankDetails = BankDetails(iban: string, bic: string, holder: string)

  /** A wallet document; None is a field the document does not have. */
  datatype Wallet = Wallet(
    userId: string,
    points: Option<int>,
    coupons: Option<int>,
    bankDetails: Option<BankDetails>,
    initialPointsGranted: Option<bool>)

  /** `walletData.points || 0`. */
  function PointsOrZero(w: Wallet): int {
    match w.points
    case Some(p) => p
    case None => 0
  }

  /** The wallet after the initial points were granted to it. */
  function Granted(w: Wallet): (r: Wallet)
    ensures r.userId == w.userId && PointsOrZero(r) == INITIAL_POINTS
    ensures r.initialPointsGranted == Some(true)
    ensures r.coupons == w.coupons && r.bankDetails == w.bankDetails
  {
    w.(points := Some(INITIAL_POINTS), initialPointsGranted := Some(true))
  }

  /** The wallet the repair creates for a sponsor that has none. */
  function NewWallet(userId: string): (r: Wallet)
    ensures r.userId == userId && PointsOrZero(r) == INITIAL_POINTS
    ensures r.coupons == Some(0) && r.bankDetails == Some(BankDetails("", "", ""))
    ensures r.initialPointsGranted == Some(true)
  {
    Wallet(userId, Some(INITIAL_POINTS), Some(0), Some(BankDetails("", "", "")), Some(true))
  }

  /** The id of the first user type named 'Sponsor' (a query with limit 1). */
  function SponsorTypeId(types: seq<UserType>): (r: Option<string>)
    ensures r.None? <==> forall t :: t in types ==> t.name != SPONSOR_TYPE_NAME
    ensures r.Some? ==> exists t :: t in types && t.name == SPONSOR_TYPE_NAME && t.id == r.value
  {
    if types == [] then None
    else if types[0].name == SPONSOR_TYPE_NAME then Some(types[0].id)
    else SponsorTypeId(types[1..])
  }

  /** The users of the given type, in query order. */
  function Sponsors(users: seq<User>, typeId: string): (r: seq<User>)
    ensures forall u :: u in r <==> u in users && u.userTypeId == typeId
    ensures |r| <= |users|
  {
    if users == [] then []
    else (if users[0].userTypeId == typeId then [users[0]] else []) + Sponsors(users[1..], typeId)
  }

  /** The index of the first wallet of a user (a query with limit 1). */
  function FirstWallet(wallets: seq<Wallet>, userId: string): (r: Option<nat>)
    ensures r.Some? ==> r.value < |wallets| && wallets[r.value].userId == userId
    ensures r.Some? ==> forall j :: 0 <= j < r.value ==> wallets[j].userId != userId
    ensures r.None? ==> forall j :: 0 <= j < |wallets| ==> wallets[j].userId != userId
  {
    if wallets == [] then None
    else if wallets[0].userId == userId then Some(0)
    else match FirstWallet(wallets[1..], userId)
      case Some(j) => Some(j + 1)
      case None => None
  }

  // ---------------------------------------------------------------------------
  // The batch repair (fixSponsorInitialPoints)
  // ---------------------------------------------------------------------------

  /** A write queued in the batch: grant the wallet at an index, or create one. */
  datatype BatchOp = GrantOp(index: nat) | CreateOp(userId: string)

  /** What the repair queues for one sponsor. */
  function OpFor(wallets: seq<Wallet>, sponsor: User): (r: seq<BatchOp>)
    ensures |r| <= 1
    // a creation exactly for a sponsor without a wallet
    ensures r == [CreateOp(sponsor.id)] <==> FirstWallet(wallets, sponsor.id).None?
    // a grant only of the sponsor's own first wallet, and only when it holds no points
    ensures forall k :: 0 <= k < |r| && r[k].GrantOp? ==>
      && r[k].index < |wallets| && wallets[r[k].index].userId == sponsor.id
      && PointsOrZero(wallets[r[k].index]) == 0
      && r[k] == GrantOp(FirstWallet(wallets, sponsor.id).value)
  {
    match FirstWallet(wallets, sponsor.id)
    case Some(i) => if PointsOrZero(wallets[i]) == 0 then [GrantOp(i)] else []
    case None => [CreateOp(sponsor.id)]
  }

  /** The whole batch for the sponsors, in order; its length is `updatedCount`. */
  function Plan(sponsors: seq<User>, wallets: seq<Wallet>): (r: seq<BatchOp>)
    ensures |r| <= |sponsors|
    decreases |sponsors|
  {
    if sponsors == [] then []
    else Plan(sponsors[..|sponsors| - 1], wallets) + OpFor(wallets, sponsors[|sponsors| - 1])
  }

  function ApplyOp(wallets: seq<Wallet>, op: BatchOp): (r: seq<Wallet>)
    ensures op.GrantOp? ==> |r| == |wallets|
    ensures op.CreateOp? ==> r == wallets + [NewWallet(op.userId)]
  {
    match op
    case GrantOp(i) => if i < |wallets| then wallets[i := Granted(wallets[i])] else wallets
    case CreateOp(u) => wallets + [NewWallet(u)]
  }

  /** The wallet collection once the batch is committed. */
  function Commit(wallets: seq<Wallet>, batch: seq<BatchOp>): seq<Wallet>
    decreases |batch|
  {
    if batch == [] then wallets
    else ApplyOp(Commit(wallets, batch[..|batch| - 1]), batch[|batch| - 1])
  }

  datatype FixResponse =
    | SponsorTypeNotFound                               // HTTP 404
    | Fixed(totalSponsors: nat, updatedSponsors: nat)   // HTTP 200
    | ServerError                                       // HTTP 500

  /**
   * fixSponsorInitialPoints: 404 with no write when no user type is named
   * 'Sponsor'; otherwise one batch write per sponsor whose wallet has zero or
   * missing points or who has no wallet, committed when there is at least one.
   * `commitFails` is the store refusing the batch: the error is caught and
   * answered with 500, and an atomic batch leaves every wallet as it was.
   */
  method FixSponsorInitialPoints(types: seq<UserType>, users: seq<User>, wallets: seq<Wallet>,
                                 commitFails: bool)
    returns (response: FixResponse, after: seq<Wallet>)
    ensures SponsorTypeId(types).None? ==> response == SponsorTypeNotFound && after == wallets
    ensures SponsorTypeId(types).Some? ==>
      var sponsors := Sponsors(users, SponsorTypeId(types).value);
      var plan := Plan(sponsors, wallets);
      if plan != [] && commitFails then response == ServerError && after == wallets
      else response == Fixed(|sponsors|, |plan|) && after == Commit(wallets, plan)
  {
    var typeId := SponsorTypeId(types);
    if typeId.None? {
      return SponsorTypeNotFound, wallets;
    }
    var sponsors := Sponsors(users, typeId.value);
    var batch, updatedCount := QueueRepairs(sponsors, wallets);
    if updatedCount > 0 {
      if commitFails {
        return ServerError, wallets;
      }
      after := Commit(wallets, batch);
    } else {
      after := wallets;
    }
    response := Fixed(|sponsors|, updatedCount);
  }

  /** The loop over the sponsors: queue each one's write and count the writes. */
  method QueueRepairs(sponsors: seq<User>, wallets: seq<Wallet>) returns (batch: seq<BatchOp>, updatedCount: nat)
    ensures batch == Plan(sponsors, wallets)
    ensures updatedCount == |batch|
  {
    batch := [];
    updatedCount := 0;
    var k := 0;
    while k < |sponsors|
      invariant 0 <= k <= |sponsors|
      invariant batch == Plan(sponsors[..k], wallets)
      invariant updatedCount == |batch|
    {
      var sponsor := sponsors[k];
      PlanStep(sponsors, wallets, k);
      var found := FirstWallet(wallets, sponsor.id);
      if found.Some? {
        var i := found.value;
        if PointsOrZero(wallets[i]) == 0 {
          batch := batch + [GrantOp(i)];
          updatedCount := updatedCount + 1;
        }
      } else {
        batch := batch + [CreateOp(sponsor.id)];
        updatedCount := updatedCount + 1;
      }
      k := k + 1;
    }
    assert sponsors[..k] == sponsors;
  }

  /** The plan for one more sponsor adds that sponsor's write, if any. */
  lemma PlanStep(sponsors: seq<User>, wallets: seq<Wallet>, k: nat)
    requires k < |sponsors|
    ensures Plan(sponsors[..k + 1], wallets) == Plan(sponsors[..k], wallets) + OpFor(wallets, sponsors[k])
  {
    assert sponsors[..k + 1][..k] == sponsors[..k];
  }

  // ---------------------------------------------------------------------------
  // What the committed batch does
  // ---------------------------------------------------------------------------

  /** Wallet `i` is the first wallet of one of the sponsors. */
  predicate OwnedBySponsor(sponsors: seq<User>, wallets: seq<Wallet>, i: nat)
    decreases |sponsors|
  {
    && sponsors != []
    && (|| FirstWallet(wallets, sponsors[|sponsors| - 1].id) == Some(i)
        || OwnedBySponsor(sponsors[..|sponsors| - 1], wallets, i))
  }

  /** The first wallet of any listed sponsor is owned by a sponsor. */
  lemma {:induction false} OwnedByMember(sponsors: seq<User>, wallets: seq<Wallet>, k: nat)
    requires k < |sponsors| && FirstWallet(wallets, sponsors[k].id).Some?
    ensures OwnedBySponsor(sponsors, wallets, FirstWallet(wallets, sponsors[k].id).value)
    decreases |sponsors|
  {
    if k < |sponsors| - 1 {
      var front := sponsors[..|sponsors| - 1];
      assert front[k] == sponsors[k];
      OwnedByMember(front, wallets, k);
    }
  }

  /** The ids of the sponsors that have no wallet, in order. */
  function Unwalleted(sponsors: seq<User>, wallets: seq<Wallet>): (r: seq<string>)
    ensures |r| <= |sponsors|
    decreases |sponsors|
  {
    if sponsors == [] then []
    else
      var s := sponsors[|sponsors| - 1];
      Unwalleted(sponsors[..|sponsors| - 1], wallets) + (if FirstWallet(wallets, s.id).None? then [s.id] else [])
  }

  /** Only sponsors without a wallet are listed as lacking one. */
  lemma {:induction false} UnwalletedSound(sponsors: seq<User>, wallets: seq<Wallet>, u: string)
    requires u in Unwalleted(sponsors, wallets)
    ensures FirstWallet(wallets, u).None?
    ensures exists k :: 0 <= k < |sponsors| && sponsors[k].id == u
    decreases |sponsors|
  {
    var front := sponsors[..|sponsors| - 1];
    var s := sponsors[|sponsors| - 1];
    if u in Unwalleted(front, wallets) {
      UnwalletedSound(front, wallets, u);
      var k :| 0 <= k < |front| && front[k].id == u;
      assert sponsors[k] == front[k];
    } else {
      assert u == s.id && FirstWallet(wallets, s.id).None?;
    }
  }

  function NewWallets(ids: seq<string>): (r: seq<Wallet>)
    ensures |r| == |ids|
    ensures forall j :: 0 <= j < |ids| ==> r[j] == NewWallet(ids[j])
  {
    if ids == [] then [] else [NewWallet(ids[0])] + NewWallets(ids[1..])
  }

  /** The wallet at index `i` after the repair. */
  function Repaired(sponsors: seq<User>, wallets: seq<Wallet>, i: nat): Wallet
    requires i < |wallets|
  {
    if PointsOrZero(wallets[i]) == 0 && OwnedBySponsor(sponsors, wallets, i) then Granted(wallets[i])
    else wallets[i]
  }

  /** Committing the plan for one more sponsor applies that sponsor's write, if any. */
  lemma CommitStep(sponsors: seq<User>, wallets: seq<Wallet>)
    requires sponsors != []
    ensures var front := Commit(wallets, Plan(sponsors[..|sponsors| - 1], wallets));
      var ops := OpFor(wallets, sponsors[|sponsors| - 1]);
      Commit(wallets, Plan(sponsors, wallets)) == if ops == [] then front else ApplyOp(front, ops[0])
  {
    var p := Plan(sponsors, wallets);
    var ops := OpFor(wallets, sponsors[|sponsors| - 1]);
    if ops != [] {
      assert p[..|p| - 1] == Plan(sponsors[..|sponsors| - 1], wallets);
    } else {
      assert p == Plan(sponsors[..|sponsors| - 1], wallets);
    }
  }

  /**
   * The committed repair, wallet by wallet: the first wallet of each sponsor
   * with zero or missing points gets 100 points and the grant flag, and every
   * other wallet is left unchanged.
   */
  lemma {:induction false} RepairOutcome(sponsors: seq<User>, wallets: seq<Wallet>)
    ensures var after := Commit(wallets, Plan(sponsors, wallets));
      && |after| == |wallets| + |Unwalleted(sponsors, wallets)|
      && forall i :: 0 <= i < |wallets| ==> after[i] == Repaired(sponsors, wallets, i)
    decreases |sponsors|
  {
    if sponsors != [] {
      var front := sponsors[..|sponsors| - 1];
      var s := sponsors[|sponsors| - 1];
      RepairOutcome(front, wallets);
      CommitStep(sponsors, wallets);
      var before := Commit(wallets, Plan(front, wallets));
      var after := Commit(wallets, Plan(sponsors, wallets));
      var ops := OpFor(wallets, s);
      forall i | 0 <= i < |wallets|
        ensures after[i] == Repaired(sponsors, wallets, i)
      {
        assert before[i] == Repaired(front, wallets, i);
        if FirstWallet(wallets, s.id) == Some(i) && PointsOrZero(wallets[i]) == 0 {
          assert ops == [GrantOp(i)];
          assert after[i] == Granted(before[i]);
        } else if ops != [] && ops[0].GrantOp? {
          assert ops[0].index != i;
        }
      }
      if FirstWallet(wallets, s.id).None? {
        assert Unwalleted(sponsors, wallets) == Unwalleted(front, wallets) + [s.id];
      } else {
        assert Unwalleted(sponsors, wallets) == Unwalleted(front, wallets);
      }
    }
  }

  /** The wallets appended by the repair: one new wallet per sponsor without a wallet, in order. */
  lemma {:induction false} RepairCreates(sponsors: seq<User>, wallets: seq<Wallet>)
    ensures var after := Commit(wallets, Plan(sponsors, wallets));
      |wallets| <= |after| && after[|wallets|..] == NewWallets(Unwalleted(sponsors, wallets))
    decreases |sponsors|
  {
    if sponsors != [] {
      var front := sponsors[..|sponsors| - 1];
      var s := sponsors[|sponsors| - 1];
      RepairCreates(front, wallets);
      CommitStep(sponsors, wallets);
      var before := Commit(wallets, Plan(front, wallets));
      var ops := OpFor(wallets, s);
      match FirstWallet(wallets, s.id)
      case None =>
        assert ops == [CreateOp(s.id)];
        assert Unwalleted(sponsors, wallets) == Unwalleted(front, wallets) + [s.id];
        NewWalletsAppend(Unwalleted(front, wallets), s.id);
        AppendKeepsTail(before, |wallets|, NewWallet(s.id));
      case Some(i) =>
        assert Unwalleted(sponsors, wallets) == Unwalleted(front, wallets);
        if ops != [] {
          assert ops[0] == GrantOp(i);
          GrantKeepsTail(before, i, |wallets|);
        }
    }
  }

  lemma NewWalletsAppend(ids: seq<string>, u: string)
    ensures NewWallets(ids + [u]) == NewWallets(ids) + [NewWallet(u)]
  {
  }

  lemma AppendKeepsTail(ws: seq<Wallet>, n: nat, w: Wallet)
    requires n <= |ws|
    ensures (ws + [w])[n..] == ws[n..] + [w]
  {
  }

  lemma GrantKeepsTail(ws: seq<Wallet>, i: nat, n: nat)
    requires i < n <= |ws|
    ensures |ApplyOp(ws, GrantOp(i))| == |ws|
    ensures ApplyOp(ws, GrantOp(i))[n..] == ws[n..]
  {
  }

  /** `updatedCount` never exceeds `totalSponsors`. */
  lemma FixCountBounded(types: seq<UserType>, users: seq<User>, wallets: seq<Wallet>)
    requires SponsorTypeId(types).Some?
    ensures var sponsors := Sponsors(users, SponsorTypeId(types).value);
      |Plan(sponsors, wallets)| <= |sponsors| <= |users|
  {
  }

  /** A plan whose every sponsor needs nothing is empty. */
  lemma {:induction false} PlanEmpty(sponsors: seq<User>, wallets: seq<Wallet>)
    requires forall s :: s in sponsors ==> OpFor(wallets, s) == []
    ensures Plan(sponsors, wallets) == []
    decreases |sponsors|
  {
    if sponsors != [] {
      assert sponsors[|sponsors| - 1] in sponsors;
      PlanEmpty(sponsors[..|sponsors| - 1], wallets);
    }
  }

  /** The first wallet of a user is the one at `i` when no earlier wallet is theirs. */
  lemma {:induction false} FirstWalletAt(wallets: seq<Wallet>, userId: string, i: nat)
    requires i < |wallets| && wallets[i].userId == userId
    requires forall j :: 0 <= j < i ==> wallets[j].userId != userId
    ensures FirstWallet(wallets, userId) == Some(i)
  {
    if i > 0 {
      FirstWalletAt(wallets[1..], userId, i - 1);
    }
  }

  /** The repair keeps each existing wallet's owner and only appends. */
  lemma RepairKeepsOwners(sponsors: seq<User>, wallets: seq<Wallet>)
    ensures var after := Commit(wallets, Plan(sponsors, wallets));
      && |wallets| <= |after|
      && forall j :: 0 <= j < |wallets| ==> after[j].userId == wallets[j].userId
  {
    RepairOutcome(sponsors, wallets);
  }

  /** A sponsor that had a wallet keeps it as first wallet, now with non-zero points. */
  lemma SettledWithWallet(sponsors: seq<User>, wallets: seq<Wallet>, k: nat)
    requires k < |sponsors| && FirstWallet(wallets, sponsors[k].id).Some?
    ensures var after := Commit(wallets, Plan(sponsors, wallets));
      OpFor(after, sponsors[k]) == []
  {
    var after := Commit(wallets, Plan(sponsors, wallets));
    var id := sponsors[k].id;
    var i := FirstWallet(wallets, id).value;
    RepairOutcome(sponsors, wallets);
    RepairKeepsOwners(sponsors, wallets);
    OwnedByMember(sponsors, wallets, k);
    FirstWalletAt(after, id, i);
    assert after[i] == Repaired(sponsors, wallets, i);
  }

  /** A sponsor that had no wallet finds, as first wallet, a created one. */
  lemma SettledWithoutWallet(sponsors: seq<User>, wallets: seq<Wallet>, k: nat)
    requires k < |sponsors| && FirstWallet(wallets, sponsors[k].id).None?
    ensures var after := Commit(wallets, Plan(sponsors, wallets));
      OpFor(after, sponsors[k]) == []
  {
    var after := Commit(wallets, Plan(sponsors, wallets));
    var id := sponsors[k].id;
    var missing := Unwalleted(sponsors, wallets);
    RepairKeepsOwners(sponsors, wallets);
    RepairCreates(sponsors, wallets);
    UnwalletedComplete(sponsors, wallets, k);
    var m :| 0 <= m < |missing| && missing[m] == id;
    var created := after[|wallets|..];
    assert created[m] == NewWallet(id);
    assert after[|wallets| + m] == created[m];
    var f := FirstWallet(after, id);
    assert f.Some? && f.value >= |wallets|;
    assert after[f.value] == created[f.value - |wallets|];
  }

  /**
   * Running the repair a second time queues nothing: every sponsor now has a
   * first wallet with non-zero points.
   */
  lemma RepairIdempotent(sponsors: seq<User>, wallets: seq<Wallet>)
    ensures Plan(sponsors, Commit(wallets, Plan(sponsors, wallets))) == []
  {
    var after := Commit(wallets, Plan(sponsors, wallets));
    forall s | s in sponsors
      ensures OpFor(after, s) == []
    {
      var k :| 0 <= k < |sponsors| && sponsors[k] == s;
      if FirstWallet(wallets, s.id).Some? {
        SettledWithWallet(sponsors, wallets, k);
      } else {
        SettledWithoutWallet(sponsors, wallets, k);
      }
    }
    PlanEmpty(sponsors, after);
  }

  /** Every sponsor without a wallet is listed among the wallets to create. */
  lemma {:induction false} UnwalletedComplete(sponsors: seq<User>, wallets: seq<Wallet>, k: nat)
    requires k < |sponsors| && FirstWallet(wallets, sponsors[k].id).None?
    ensures sponsors[k].id in Unwalleted(sponsors, wallets)
    decreases |sponsors|
  {
    if k < |sponsors| - 1 {
      var front := sponsors[..|sponsors| - 1];
      assert front[k] == sponsors[k];
      UnwalletedComplete(front, wallets, k);
    }
  }

  // ---------------------------------------------------------------------------
  // The rule run on establishment creation (grantInitialSponsorPoints)
  // ---------------------------------------------------------------------------

  function FindUser(users: seq<User>, id: string): (r: Option<User>)
    ensures r.Some? ==> r.value in users && r.value.id == id
    ensures r.None? ==> forall u :: u in users ==> u.id != id
  {
    if users == [] then None
    else if users[0].id == id then Some(users[0])
    else FindUser(users[1..], id)
  }

  function FindUserType(types: seq<UserType>, id: string): (r: Option<UserType>)
    ensures r.Some? ==> r.value in types && r.value.id == id
    ensures r.None? ==> forall t :: t in types ==> t.id != id
  {
    if types == [] then None
    else if types[0].id == id then Some(types[0])
    else FindUserType(types[1..], id)
  }

  /** `!walletData.initial_points_granted`. */
  predicate NotYetGranted(w: Wallet) {
    w.initialPointsGranted != Some(true)
  }

  /**
   * The wallet the rule grants, for an establishment created with owner
   * `userId` (empty when the field is missing). A missing or empty user type
   * id makes the type lookup throw; the error is caught and nothing is written.
   */
  function GrantTarget(userId: string, users: seq<User>, types: seq<UserType>, wallets: seq<Wallet>)
    : (r: Option<nat>)
    ensures r.Some? <==>
      && userId != ""
      && FindUser(users, userId).Some?
      && FindUser(users, userId).value.userTypeId != ""
      && FindUserType(types, FindUser(users, userId).value.userTypeId).Some?
      && FindUserType(types, FindUser(users, userId).value.userTypeId).value.name == SPONSOR_TYPE_NAME
      && FirstWallet(wallets, userId).Some?
      && NotYetGranted(wallets[FirstWallet(wallets, userId).value])
      && wallets[FirstWallet(wallets, userId).value].points == Some(0)
    ensures r.Some? ==> r == FirstWallet(wallets, userId)
  {
    if userId == "" then None
    else match FindUser(users, userId)
      case None => None
      case Some(user) =>
        if user.userTypeId == "" then None
        else match FindUserType(types, user.userTypeId)
          case None => None
          case Some(t) =>
            if t.name != SPONSOR_TYPE_NAME then None
            else match FirstWallet(wallets, userId)
              case None => None
              case Some(i) =>
                if NotYetGranted(wallets[i]) && wallets[i].points == Some(0) then Some(i) else None
  }

  /**
   * grantInitialSponsorPoints: the wallet collection after the rule ran. It
   * never creates a wallet and never fails (it always answers null).
   */
  function GrantInitialSponsorPoints(userId: string, users: seq<User>, types: seq<UserType>,
                                     wallets: seq<Wallet>): (r: seq<Wallet>)
    ensures |r| == |wallets|
    ensures GrantTarget(userId, users, types, wallets).None? ==> r == wallets
    ensures GrantTarget(userId, users, types, wallets).Some? ==>
      var i := GrantTarget(userId, users, types, wallets).value;
      r[i] == Granted(wallets[i]) && forall j :: 0 <= j < |wallets| && j != i ==> r[j] == wallets[j]
  {
    match GrantTarget(userId, users, types, wallets)
    case None => wallets
    case Some(i) => wallets[i := Granted(wallets[i])]
  }

  /** The rule grants at most once: running it again changes nothing. */
  lemma GrantOnce(userId: string, users: seq<User>, types: seq<UserType>, wallets: seq<Wallet>)
    ensures var once := GrantInitialSponsorPoints(userId, users, types, wallets);
      GrantInitialSponsorPoints(userId, users, types, once) == once
  {
    var once := GrantInitialSponsorPoints(userId, users, types, wallets);
    var t := GrantTarget(userId, users, types, wallets);
    if t.Some? {
      assert forall j :: 0 <= j < |wallets| ==> once[j].userId == wallets[j].userId;
      var f := FirstWallet(once, userId);
      assert f.Some? && f.value <= t.value;
      assert f == t;
    }
  }

  /**
   * The two zero tests differ on a sponsor wallet without a points field: the
   * repair grants it, the creation rule does not.
   */
  lemma MissingPointsTestsDiffer(sponsor: User, users: seq<User>, types: seq<UserType>, wallets: seq<Wallet>)
    requires FirstWallet(wallets, sponsor.id).Some?
    requires wallets[FirstWallet(wallets, sponsor.id).value].points.None?
    ensures OpFor(wallets, sponsor) == [GrantOp(FirstWallet(wallets, sponsor.id).value)]
    ensures GrantTarget(sponsor.id, users, types, wallets).None?
  {
  }
}
