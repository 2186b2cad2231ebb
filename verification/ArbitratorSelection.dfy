/**
 Choosing the arbitrator of a dispute
 (services/user-service/src/modules/arbitration/arbitrator-selection.service.ts).
 */
module ArbitratorSelection {
  import opened Outcomes
  import StringOrder

  datatype Status = Pending | Active | Suspended | Inactive
  datatype Availability = Available | Away

  datatype Profile = Profile(
    id: string,
    userId: string,
    status: Status,
    availability: Availability,
    wallet: Option<string>,
    rating: Option<real>,
    totalCases: Option<int>)

  datatype Deal = Deal(id: string, buyerId: Option<string>, sellerId: Option<string>)

  /** The states in which a dispute occupies its arbitrator, and the others. */
  datatype DisputeStatus =
    | Opened | WaitingBuyerEvidence | WaitingSellerEvidence | WaitingSellerResponse | PendingArbitrator | UnderReview
    | DecisionMade | AppealPeriod | Appealed | Enforced | Closed

  predicate IsActive(s: DisputeStatus) {
    s.Opened? || s.WaitingBuyerEvidence? || s.WaitingSellerEvidence? || s.WaitingSellerResponse? || s.PendingArbitrator? || s.UnderReview?
  }

  /** `appeals` counts the appeals that are still to be reviewed. */
  datatype Dispute = Dispute(dealId: string, arbitratorId: Option<string>, status: DisputeStatus, appeals: nat)

  datatype Candidate = Candidate(userId: string, profileId: string, walletAddress: string, activeCases: nat, rating: real, totalCases: int)

  datatype Filter = Filter(maxConcurrent: Option<int>, excludeUserIds: Option<seq<string>>)

  const DEFAULT_MAX_CONCURRENT := 5

  // ---------- Specification ----------

  /** The disputes an arbitrator is working on. */
  function Load(disputes: seq<Dispute>, userId: string): nat {
    if disputes == [] then 0
    else
      var last := disputes[|disputes| - 1];
      Load(disputes[..|disputes| - 1], userId) + if WorksOn(last, userId) then 1 else 0
  }

  predicate WorksOn(d: Dispute, userId: string) {
    d.arbitratorId == Some(userId) && IsActive(d.status)
  }

  function MaxConcurrent(f: Filter): int {
    if f.maxConcurrent.Some? then f.maxConcurrent.value else DEFAULT_MAX_CONCURRENT
  }

  /** Neither a party to the deal nor excluded by the caller. */
  predicate Excluded(userId: string, d: Deal, f: Filter) {
    || (d.buyerId == Some(userId) && userId != "")
    || (d.sellerId == Some(userId) && userId != "")
    || (f.excludeUserIds.Some? && userId in f.excludeUserIds.value)
  }

  /** The query: active, available, not excluded. */
  predicate Listed(p: Profile, d: Deal, f: Filter) {
    p.status.Active? && p.availability.Available? && !Excluded(p.userId, d, f)
  }

  predicate HasWallet(p: Profile) {
    p.wallet.Some? && p.wallet.value != ""
  }

  predicate Eligible(p: Profile, d: Deal, f: Filter, disputes: seq<Dispute>) {
    Listed(p, d, f) && HasWallet(p) && Load(disputes, p.userId) < MaxConcurrent(f)
  }

  function CandidateOf(p: Profile, disputes: seq<Dispute>): Candidate
    requires HasWallet(p)
  {
    Candidate(p.userId, p.id, p.wallet.value, Load(disputes, p.userId),
              if p.rating.Some? then p.rating.value else 0.0, if p.totalCases.Some? then p.totalCases.value else 0)
  }

  /** The comparison of the sort: fewer cases, then higher rating, then user identifier. */
  predicate Before(a: Candidate, b: Candidate) {
    if a.activeCases != b.activeCases then a.activeCases < b.activeCases
    else if a.rating != b.rating then a.rating > b.rating
    else StringOrder.Less(a.userId, b.userId)
  }

  /** `w` is the least of `candidates`. */
  ghost predicate Best(w: Candidate, candidates: set<Candidate>) {
    w in candidates && forall c | c in candidates && c != w :: Before(w, c)
  }

  ghost function Candidates(table: seq<Profile>, d: Deal, f: Filter, disputes: seq<Dispute>): set<Candidate> {
    set p | p in table && Eligible(p, d, f, disputes) :: CandidateOf(p, disputes)
  }

  /** `user_id` is unique in the table. */
  ghost predicate UniqueUsers(table: seq<Profile>) {
    forall i, j | 0 <= i < j < |table| :: table[i].userId != table[j].userId
  }

  // ---------- The order ----------

  lemma BeforeTotal(a: Candidate, b: Candidate)
    ensures !(Before(a, b) && Before(b, a))
    ensures a.userId != b.userId ==> Before(a, b) || Before(b, a)
  {
    StringOrder.Trichotomy(a.userId, b.userId);
  }

  lemma BeforeTransitive(a: Candidate, b: Candidate, c: Candidate)
    requires Before(a, b) && Before(b, c)
    ensures Before(a, c)
  {
    if a.activeCases == b.activeCases == c.activeCases && a.rating == b.rating == c.rating {
      StringOrder.Transitive(a.userId, b.userId, c.userId);
    }
  }

  lemma BestIsUnique(v: Candidate, w: Candidate, candidates: set<Candidate>)
    requires Best(v, candidates) && Best(w, candidates)
    ensures v == w
  {
    BeforeTotal(v, w);
  }

  // ---------- The sort ----------

  ghost predicate DistinctUsers(s: seq<Candidate>) {
    forall i, j | 0 <= i < j < |s| :: s[i].userId != s[j].userId
  }

  ghost predicate Sorted(s: seq<Candidate>) {
    forall i, j | 0 <= i < j < |s| :: Before(s[i], s[j])
  }

  function Insert(c: Candidate, s: seq<Candidate>): seq<Candidate> {
    if s == [] || Before(c, s[0]) then [c] + s else [s[0]] + Insert(c, s[1..])
  }

  /** `candidates.sort(...)` */
  function Sort(s: seq<Candidate>): seq<Candidate> {
    if s == [] then [] else Insert(s[0], Sort(s[1..]))
  }

  lemma {:induction false} InsertSorts(c: Candidate, s: seq<Candidate>)
    requires Sorted(s) && forall d | d in s :: d.userId != c.userId
    ensures Sorted(Insert(c, s))
    ensures forall d :: d in Insert(c, s) <==> d == c || d in s
  {
    if s == [] {
    } else if Before(c, s[0]) {
      forall j | 0 < j < |s|
        ensures Before(c, s[j])
      {
        BeforeTransitive(c, s[0], s[j]);
      }
    } else {
      BeforeTotal(c, s[0]);
      InsertSorts(c, s[1..]);
      assert s == [s[0]] + s[1..];
      var rest := Insert(c, s[1..]);
      forall j | 0 <= j < |rest|
        ensures Before(s[0], rest[j])
      {
        assert rest[j] in rest;
        assert rest[j] == c || rest[j] in s[1..];
      }
    }
  }

  lemma {:induction false} SortSorts(s: seq<Candidate>)
    requires DistinctUsers(s)
    ensures Sorted(Sort(s)) && forall d :: d in Sort(s) <==> d in s
  {
    if s != [] {
      SortSorts(s[1..]);
      assert s == [s[0]] + s[1..];
      InsertSorts(s[0], Sort(s[1..]));
    }
  }

  /** The head of the sorted list is its least element. */
  lemma SortedHead(s: seq<Candidate>, candidates: set<Candidate>)
    requires DistinctUsers(s) && s != [] && forall c :: c in s <==> c in candidates
    ensures Sort(s) != [] && Best(Sort(s)[0], candidates)
  {
    SortSorts(s);
    assert s[0] in Sort(s);
    var w := Sort(s)[0];
    assert w in Sort(s);
    forall c | c in candidates && c != w
      ensures Before(w, c)
    {
      assert c in Sort(s);
      var j :| 0 <= j < |Sort(s)| && Sort(s)[j] == c;
    }
  }

  // ---------- Selection ----------

  /** `profileRepo.find`: the listed rows, in the order of the table, which may be any. */
  function Query(table: seq<Profile>, d: Deal, f: Filter): seq<Profile> {
    if table == [] then []
    else
      var rows := Query(table[..|table| - 1], d, f);
      if Listed(table[|table| - 1], d, f) then rows + [table[|table| - 1]] else rows
  }

  lemma {:induction false} QueryLists(table: seq<Profile>, d: Deal, f: Filter)
    ensures forall p :: p in Query(table, d, f) <==> p in table && Listed(p, d, f)
    ensures UniqueUsers(table) ==> UniqueUsers(Query(table, d, f))
  {
    if table != [] {
      var front, last := table[..|table| - 1], table[|table| - 1];
      QueryLists(front, d, f);
      assert table == front + [last];
      if UniqueUsers(table) {
        var rows := Query(front, d, f);
        forall i | 0 <= i < |rows|
          ensures rows[i].userId != last.userId
        {
          assert rows[i] in front;
        }
      }
    }
  }

  // ---------- What the service promises, on the rows themselves ----------

  /** The disputes in one of the six active states that name the arbitrator. */
  ghost function ActiveCases(disputes: seq<Dispute>, u: string): set<int> {
    set i | 0 <= i < |disputes| && disputes[i].arbitratorId == Some(u)
      && disputes[i].status in {Opened, WaitingBuyerEvidence, WaitingSellerEvidence, WaitingSellerResponse, PendingArbitrator, UnderReview}
  }

  lemma {:induction false} LoadCounts(disputes: seq<Dispute>, u: string)
    ensures Load(disputes, u) == |ActiveCases(disputes, u)|
  {
    if disputes != [] {
      var n := |disputes| - 1;
      LoadCounts(disputes[..n], u);
      var front := ActiveCases(disputes[..n], u);
      if WorksOn(disputes[n], u) {
        assert ActiveCases(disputes, u) == front + {n};
      } else {
        assert ActiveCases(disputes, u) == front;
      }
    }
  }

  /** Active, available, with a wallet and a case less than the limit, neither party nor excluded. */
  ghost predicate Qualifies(p: Profile, d: Deal, f: Filter, disputes: seq<Dispute>) {
    && p.status == Active
    && p.availability == Available
    && p.wallet != None && p.wallet != Some("")
    && (p.userId == "" || (d.buyerId != Some(p.userId) && d.sellerId != Some(p.userId)))
    && (f.excludeUserIds == None || p.userId !in f.excludeUserIds.value)
    && (match f.maxConcurrent case Some(m) => Load(disputes, p.userId) < m case None => Load(disputes, p.userId) < 5)
  }

  function RatingOf(p: Profile): real {
    match p.rating case Some(r) => r case None => 0.0
  }

  /** `c` shows the profile `p`. */
  ghost predicate Describes(c: Candidate, p: Profile, disputes: seq<Dispute>) {
    && c.userId == p.userId && c.profileId == p.id && Some(c.walletAddress) == p.wallet
    && c.activeCases == Load(disputes, p.userId) && c.rating == RatingOf(p)
    && (match p.totalCases case Some(n) => c.totalCases == n case None => c.totalCases == 0)
  }

  lemma CandidateDescribes(p: Profile, d: Deal, f: Filter, disputes: seq<Dispute>)
    ensures Eligible(p, d, f, disputes) <==> Qualifies(p, d, f, disputes)
    ensures Eligible(p, d, f, disputes) ==> Describes(CandidateOf(p, disputes), p, disputes)
  {
  }

  /** The least candidate, told from the rows. */
  lemma BestOfRows(w: Candidate, table: seq<Profile>, d: Deal, f: Filter, disputes: seq<Dispute>)
    requires Best(w, Candidates(table, d, f, disputes))
    ensures exists q :: q in table && Qualifies(q, d, f, disputes) && Describes(w, q, disputes)
    ensures forall p | p in table && Qualifies(p, d, f, disputes) ::
              && w.activeCases <= Load(disputes, p.userId)
              && (w.activeCases == Load(disputes, p.userId) ==> w.rating >= RatingOf(p))
              && (w.activeCases == Load(disputes, p.userId) && w.rating == RatingOf(p) ==>
                    w.userId == p.userId || StringOrder.Less(w.userId, p.userId))
  {
    var q :| q in table && Eligible(q, d, f, disputes) && w == CandidateOf(q, disputes);
    CandidateDescribes(q, d, f, disputes);
    forall p | p in table && Qualifies(p, d, f, disputes)
      ensures w == CandidateOf(p, disputes) || Before(w, CandidateOf(p, disputes))
    {
      CandidateDescribes(p, d, f, disputes);
      assert CandidateOf(p, disputes) in Candidates(table, d, f, disputes);
    }
  }

  lemma NobodyQualifies(table: seq<Profile>, d: Deal, f: Filter, disputes: seq<Dispute>)
    ensures Candidates(table, d, f, disputes) == {} <==> forall p | p in table :: !Qualifies(p, d, f, disputes)
  {
    forall p | p in table
      ensures Qualifies(p, d, f, disputes) ==> CandidateOf(p, disputes) in Candidates(table, d, f, disputes)
    {
      CandidateDescribes(p, d, f, disputes);
    }
    forall c | c in Candidates(table, d, f, disputes)
      ensures exists p | p in table :: Qualifies(p, d, f, disputes)
    {
      var p :| p in table && Eligible(p, d, f, disputes) && c == CandidateOf(p, disputes);
      CandidateDescribes(p, d, f, disputes);
    }
    if Candidates(table, d, f, disputes) != {} {
      var c :| c in Candidates(table, d, f, disputes);
    }
  }

  /** `selectForDeal` */
  method SelectForDeal(dealId: string, deals: map<string, Deal>, table: seq<Profile>, disputes: seq<Dispute>, filter: Filter)
    returns (r: Result<Candidate>)
    requires UniqueUsers(table)
    ensures r.Ok? <==> dealId in deals && Candidates(table, deals[dealId], filter, disputes) != {}
    ensures r.Ok? ==> Best(r.value, Candidates(table, deals[dealId], filter, disputes))
    ensures r.Err? ==> r.message == if dealId in deals then "No eligible arbitrators available" else "Deal not found"
    // The winner is one of the profiles that qualify, with its own data, and no other one is less loaded;
    // as loaded, none is rated higher; as loaded and rated, its user comes first.
    ensures r.Ok? ==> exists q :: q in table && Qualifies(q, deals[dealId], filter, disputes) && Describes(r.value, q, disputes)
    ensures r.Ok? ==> forall p | p in table && Qualifies(p, deals[dealId], filter, disputes) ::
                        && r.value.activeCases <= Load(disputes, p.userId)
                        && (r.value.activeCases == Load(disputes, p.userId) ==> r.value.rating >= RatingOf(p))
                        && (r.value.activeCases == Load(disputes, p.userId) && r.value.rating == RatingOf(p) ==>
                              r.value.userId == p.userId || StringOrder.Less(r.value.userId, p.userId))
    ensures dealId in deals ==> (r.Err? <==> forall p | p in table :: !Qualifies(p, deals[dealId], filter, disputes))
  {
    if dealId !in deals {
      return Err("Deal not found");
    }
    var deal := deals[dealId];
    var profiles := Query(table, deal, filter);
    QueryLists(table, deal, filter);
    var candidates: seq<Candidate> := [];
    for i := 0 to |profiles|
      invariant forall c :: c in candidates <==>
                  exists j | 0 <= j < i :: Eligible(profiles[j], deal, filter, disputes) && c == CandidateOf(profiles[j], disputes)
      invariant DistinctUsers(candidates)
    {
      var profile := profiles[i];
      assert profile in profiles;
      if HasWallet(profile) {
        var activeCases := Load(disputes, profile.userId);
        if activeCases < MaxConcurrent(filter) {
          forall c | c in candidates
            ensures c.userId != profile.userId
          {
          }
          candidates := candidates + [CandidateOf(profile, disputes)];
        }
      }
    }
    SameCandidates(candidates, table, profiles, deal, filter, disputes);
    NobodyQualifies(table, deal, filter, disputes);
    if |candidates| == 0 {
      return Err("No eligible arbitrators available");
    }
    SortedHead(candidates, Candidates(table, deal, filter, disputes));
    BestOfRows(Sort(candidates)[0], table, deal, filter, disputes);
    return Ok(Sort(candidates)[0]);
  }

  lemma SameCandidates(candidates: seq<Candidate>, table: seq<Profile>, profiles: seq<Profile>, d: Deal, f: Filter, disputes: seq<Dispute>)
    requires forall p :: p in profiles <==> p in table && Listed(p, d, f)
    requires forall c :: c in candidates <==>
               exists j | 0 <= j < |profiles| :: Eligible(profiles[j], d, f, disputes) && c == CandidateOf(profiles[j], disputes)
    ensures forall c :: c in candidates <==> c in Candidates(table, d, f, disputes)
    ensures candidates == [] <==> Candidates(table, d, f, disputes) == {}
  {
    forall c
      ensures c in candidates <==> c in Candidates(table, d, f, disputes)
    {
      if c in Candidates(table, d, f, disputes) {
        var p :| p in table && Eligible(p, d, f, disputes) && c == CandidateOf(p, disputes);
        assert p in profiles;
        var j :| 0 <= j < |profiles| && profiles[j] == p;
      }
      if c in candidates {
        var j :| 0 <= j < |profiles| && Eligible(profiles[j], d, f, disputes) && c == CandidateOf(profiles[j], disputes);
        assert profiles[j] in profiles;
      }
    }
    if candidates != [] {
      assert candidates[0] in candidates;
    }
  }

  /** Whatever order the table is in, the same arbitrator is chosen. */
  lemma OrderDoesNotMatter(table: seq<Profile>, table': seq<Profile>, d: Deal, f: Filter, disputes: seq<Dispute>, v: Candidate, w: Candidate)
    requires multiset(table) == multiset(table')
    requires Best(v, Candidates(table, d, f, disputes)) && Best(w, Candidates(table', d, f, disputes))
    ensures v == w
  {
    assert forall p :: p in table <==> p in multiset(table);
    assert forall p :: p in table' <==> p in multiset(table');
    assert Candidates(table, d, f, disputes) == Candidates(table', d, f, disputes);
    BestIsUnique(v, w, Candidates(table, d, f, disputes));
  }

  // ---------- How disputes move ----------

  predicate IsOpen(s: DisputeStatus) {
    IsActive(s) && !s.UnderReview?
  }

  /** The table of `canTransitionTo`. */
  function Transitions(s: DisputeStatus): set<DisputeStatus> {
    match s
    case Opened => {WaitingSellerResponse, WaitingBuyerEvidence, PendingArbitrator, Closed}
    case WaitingSellerResponse => {WaitingBuyerEvidence, WaitingSellerEvidence, PendingArbitrator, Closed}
    case WaitingBuyerEvidence => {WaitingSellerEvidence, PendingArbitrator, UnderReview}
    case WaitingSellerEvidence => {PendingArbitrator, UnderReview}
    case PendingArbitrator => {UnderReview, Closed}
    case UnderReview => {DecisionMade, Closed}
    case DecisionMade => {AppealPeriod, Appealed, Enforced, Closed}
    case AppealPeriod => {Appealed, Enforced, Closed}
    case Appealed => {UnderReview, DecisionMade, Enforced, Closed}
    case Enforced => {Closed}
    case Closed => {}
  }

  /** The table read backwards: from where each status can be entered. */
  lemma EnteredFrom(s: DisputeStatus, t: DisputeStatus)
    ensures t in Transitions(s) <==> (
              match t
              case Opened => false
              case WaitingSellerResponse => s.Opened?
              case WaitingBuyerEvidence => s.Opened? || s.WaitingSellerResponse?
              case WaitingSellerEvidence => s.WaitingSellerResponse? || s.WaitingBuyerEvidence?
              case PendingArbitrator => s.Opened? || s.WaitingSellerResponse? || s.WaitingBuyerEvidence? || s.WaitingSellerEvidence?
              case UnderReview => s.WaitingBuyerEvidence? || s.WaitingSellerEvidence? || s.PendingArbitrator? || s.Appealed?
              case DecisionMade => s.UnderReview? || s.Appealed?
              case AppealPeriod => s.DecisionMade?
              case Appealed => s.DecisionMade? || s.AppealPeriod?
              case Enforced => s.DecisionMade? || s.AppealPeriod? || s.Appealed?
              case Closed => !s.WaitingBuyerEvidence? && !s.WaitingSellerEvidence? && !s.Closed?)
  {
  }

  datatype Move =
    | UpdateStatus(status: DisputeStatus)
    | Decide
    | FileAppeal
    | ApproveAppeal
    | DropAppeal
    | Enforce
    | Assign(userId: string)
    | Reassign(userId: string)

  /** What a call of the dispute and arbitration services makes of a dispute; a refused one leaves it. */
  function After(d: Dispute, m: Move): Dispute {
    match m
    case UpdateStatus(s) => if d.arbitratorId.Some? && s in Transitions(d.status) then d.(status := s) else d
    case Decide => if d.arbitratorId.Some? && d.status.UnderReview? then d.(status := DecisionMade) else d
    case FileAppeal => if d.status.DecisionMade? then d.(status := Appealed, appeals := d.appeals + 1) else d
    case ApproveAppeal => if d.appeals > 0 then d.(status := UnderReview, appeals := d.appeals - 1) else d
    case DropAppeal => if d.appeals > 0 then d.(appeals := d.appeals - 1) else d
    case Enforce => d.(status := Enforced)
    case Assign(u) => if IsOpen(d.status) then d.(arbitratorId := Some(u), status := UnderReview) else d
    case Reassign(u) => d.(arbitratorId := Some(u))
  }

  /** Appeals pending are those filed against a decision less those approved or dropped, and only four
      moves decide, reopen or enforce a dispute other than by the table. */
  lemma MovesSay(d: Dispute, m: Move)
    ensures After(d, m).appeals ==
            d.appeals + (if m.FileAppeal? && d.status.DecisionMade? then 1 else 0)
            - (if (m.ApproveAppeal? || m.DropAppeal?) && d.appeals > 0 then 1 else 0)
    ensures After(d, m).status != d.status ==>
              match After(d, m).status
              case UnderReview => m.Assign? || (m.ApproveAppeal? && d.appeals > 0) || m == UpdateStatus(UnderReview)
              case DecisionMade => d.arbitratorId.Some? && ((m.Decide? && d.status.UnderReview?) || m == UpdateStatus(DecisionMade))
              case Appealed => (m.FileAppeal? && d.status.DecisionMade?) || m == UpdateStatus(Appealed)
              case Enforced => m.Enforce? || m == UpdateStatus(Enforced)
              case other => m == UpdateStatus(other)
    ensures m.UpdateStatus? ==> After(d, m).status == if d.arbitratorId.Some? && m.status in Transitions(d.status) then m.status else d.status
    ensures m.Enforce? ==> After(d, m).status == Enforced
  {
  }

  // ---------- The limit ----------

  /** Nobody works on more than `limit` disputes. */
  ghost predicate Within(disputes: seq<Dispute>, limit: int) {
    forall userId :: Load(disputes, userId) <= limit
  }

  /** The dispute comes to occupy an arbitrator whom it did not occupy before. */
  predicate Takes(before: Dispute, after: Dispute) {
    after.arbitratorId.Some? && WorksOn(after, after.arbitratorId.value) && !WorksOn(before, after.arbitratorId.value)
  }

  /** Changing one dispute changes exactly the loads of its arbitrators. */
  lemma {:induction false} LoadAfterUpdate(disputes: seq<Dispute>, i: nat, d: Dispute, userId: string)
    requires i < |disputes|
    ensures Load(disputes[i := d], userId) ==
            Load(disputes, userId) - (if WorksOn(disputes[i], userId) then 1 else 0) + (if WorksOn(d, userId) then 1 else 0)
  {
    var n := |disputes| - 1;
    if i < n {
      assert disputes[i := d][..n] == disputes[..n][i := d];
      LoadAfterUpdate(disputes[..n], i, d, userId);
    } else {
      assert disputes[i := d][..n] == disputes[..n];
    }
  }

  lemma LoadAfterOpening(disputes: seq<Dispute>, dealId: string, userId: string)
    ensures Load(disputes + [Dispute(dealId, None, Opened, 0)], userId) == Load(disputes, userId)
  {
    assert (disputes + [Dispute(dealId, None, Opened, 0)])[..|disputes|] == disputes;
  }

  /** A change of one dispute keeps the limit if and only if it takes no arbitrator, or one who is below it. */
  lemma WithinIff(disputes: seq<Dispute>, i: nat, d: Dispute, limit: int)
    requires i < |disputes| && Within(disputes, limit)
    ensures Within(disputes[i := d], limit) <==>
            !Takes(disputes[i], d) || Load(disputes, d.arbitratorId.value) < limit
  {
    var after := disputes[i := d];
    if d.arbitratorId.Some? {
      LoadAfterUpdate(disputes, i, d, d.arbitratorId.value);
    }
    if !Takes(disputes[i], d) || Load(disputes, d.arbitratorId.value) < limit {
      forall userId
        ensures Load(after, userId) <= limit
      {
        LoadAfterUpdate(disputes, i, d, userId);
      }
    } else {
      assert Load(after, d.arbitratorId.value) > limit;
    }
  }

  /** Who takes an arbitrator: an assignment, a reassignment of what is active, and whatever reopens a
      dispute that had left the active states: an approved appeal, from any of them, or the arbitrator's own
      step back from an appealed one. */
  lemma TakesIff(d: Dispute, m: Move)
    ensures Takes(d, After(d, m)) <==>
            || (m.Assign? && IsOpen(d.status) && d.arbitratorId != Some(m.userId))
            || (m.Reassign? && IsActive(d.status) && d.arbitratorId != Some(m.userId))
            || (m.ApproveAppeal? && d.appeals > 0 && d.arbitratorId.Some? && !IsActive(d.status))
            || (m == UpdateStatus(UnderReview) && d.arbitratorId.Some? && d.status.Appealed?)
  {
  }

  /** Approving an appeal keeps the limit if and only if there is none to approve, or the dispute was
      active already, or has no arbitrator, or its arbitrator is below the limit. */
  lemma AppealWithinIff(disputes: seq<Dispute>, i: nat, limit: int)
    requires i < |disputes| && Within(disputes, limit)
    ensures var d := disputes[i];
            Within(disputes[i := After(d, ApproveAppeal)], limit) <==>
            d.appeals == 0 || IsActive(d.status) || d.arbitratorId.None? || Load(disputes, d.arbitratorId.value) < limit
  {
    WithinIff(disputes, i, After(disputes[i], ApproveAppeal), limit);
    TakesIff(disputes[i], ApproveAppeal);
  }

  // ---------- Runs ----------

  datatype Step = Open(dealId: string) | On(index: nat, move: Move)

  function Next(disputes: seq<Dispute>, s: Step): seq<Dispute> {
    match s
    case Open(dealId) => disputes + [Dispute(dealId, None, Opened, 0)]
    case On(i, m) => if i < |disputes| then disputes[i := After(disputes[i], m)] else disputes
  }

  predicate Harmless(disputes: seq<Dispute>, s: Step, limit: int) {
    s.On? && s.index < |disputes| ==>
      var d := After(disputes[s.index], s.move);
      !Takes(disputes[s.index], d) || Load(disputes, d.arbitratorId.value) < limit
  }

  ghost predicate Run(states: seq<seq<Dispute>>, steps: seq<Step>) {
    |states| == |steps| + 1 && forall k | 0 <= k < |steps| :: states[k + 1] == Next(states[k], steps[k])
  }

  lemma StepWithinIff(disputes: seq<Dispute>, s: Step, limit: int)
    requires Within(disputes, limit)
    ensures Within(Next(disputes, s), limit) <==> Harmless(disputes, s, limit)
  {
    if s.Open? {
      forall userId
        ensures Load(Next(disputes, s), userId) <= limit
      {
        LoadAfterOpening(disputes, s.dealId, userId);
      }
    } else if s.index < |disputes| {
      WithinIff(disputes, s.index, After(disputes[s.index], s.move), limit);
    }
  }

  lemma {:induction false} WithinUpTo(states: seq<seq<Dispute>>, steps: seq<Step>, limit: int, n: nat)
    requires Run(states, steps) && n <= |steps| && Within(states[0], limit)
    requires forall k | 0 <= k < |steps| :: Harmless(states[k], steps[k], limit)
    ensures Within(states[n], limit)
  {
    if n > 0 {
      WithinUpTo(states, steps, limit, n - 1);
      StepWithinIff(states[n - 1], steps[n - 1], limit);
    }
  }

  /** A run stays within the limit if and only if it starts there and no step of it takes an
      arbitrator who is at the limit. */
  lemma RunWithinIff(states: seq<seq<Dispute>>, steps: seq<Step>, limit: int)
    requires Run(states, steps)
    ensures (forall k | 0 <= k <= |steps| :: Within(states[k], limit)) <==>
            Within(states[0], limit) && forall k | 0 <= k < |steps| :: Harmless(states[k], steps[k], limit)
  {
    if forall k | 0 <= k <= |steps| :: Within(states[k], limit) {
      forall k | 0 <= k < |steps|
        ensures Harmless(states[k], steps[k], limit)
      {
        assert Within(states[k + 1], limit);
        StepWithinIff(states[k], steps[k], limit);
      }
    } else if Within(states[0], limit) && forall k | 0 <= k < |steps| :: Harmless(states[k], steps[k], limit) {
      forall k | 0 <= k <= |steps|
        ensures Within(states[k], limit)
      {
        WithinUpTo(states, steps, limit, k);
      }
      assert false;
    }
  }

  function Case(dealId: string, u: string, status: DisputeStatus, appeals: nat): Dispute {
    Dispute(dealId, Some(u), status, appeals)
  }

  /** The arbitrator decides a dispute, is selected for the next, and the appeal against the decision
      is approved. */
  function AppealSteps(u: string): seq<Step> {
    [Open("first"), On(0, Assign(u)), On(0, Decide), On(0, FileAppeal), Open("second"), On(1, Assign(u)), On(0, ApproveAppeal)]
  }

  function AppealStates(u: string): seq<seq<Dispute>> {
    var first, second := Dispute("first", None, Opened, 0), Dispute("second", None, Opened, 0);
    [[],
     [first],
     [Case("first", u, UnderReview, 0)],
     [Case("first", u, DecisionMade, 0)],
     [Case("first", u, Appealed, 1)],
     [Case("first", u, Appealed, 1), second],
     [Case("first", u, Appealed, 1), Case("second", u, UnderReview, 0)],
     [Case("first", u, UnderReview, 0), Case("second", u, UnderReview, 0)]]
  }

  /** With a limit of one, whoever was assigned was below it, and in the end works on two disputes. */
  lemma AppealPassesLimit(u: string)
    ensures Run(AppealStates(u), AppealSteps(u)) && AppealStates(u)[0] == []
    ensures Load(AppealStates(u)[1], u) == Load(AppealStates(u)[5], u) == 0
    ensures Load(AppealStates(u)[7], u) == 2
  {
    var states := AppealStates(u);
    assert states[0] + [Dispute("first", None, Opened, 0)] == states[1];
    assert states[4] + [Dispute("second", None, Opened, 0)] == states[5];
    LoadOfOne(states[1][0], u);
    LoadOfTwo(states[5][0], states[5][1], u);
    LoadOfTwo(states[7][0], states[7][1], u);
  }

  lemma LoadOfOne(d: Dispute, u: string)
    ensures Load([d], u) == if WorksOn(d, u) then 1 else 0
  {
    assert [d][..0] == [];
  }

  lemma LoadOfTwo(d: Dispute, e: Dispute, u: string)
    ensures Load([d, e], u) == (if WorksOn(d, u) then 1 else 0) + (if WorksOn(e, u) then 1 else 0)
  {
    assert [d, e][..1] == [d];
    LoadOfOne(d, u);
  }

  /** The disputes, as selections assign them and the services move them. */
  class Desk {
    var disputes: seq<Dispute>

    constructor ()
      ensures disputes == []
    {
      disputes := [];
    }

    /** A dispute of a deal is opened, or one of them moves. */
    method Take(s: Step)
      modifies this
      ensures disputes == Next(old(disputes), s)
      ensures forall limit | Within(old(disputes), limit) :: Within(disputes, limit) <==> Harmless(old(disputes), s, limit)
    {
      forall limit | Within(disputes, limit)
        ensures Within(Next(disputes, s), limit) <==> Harmless(disputes, s, limit)
      {
        StepWithinIff(disputes, s, limit);
      }
      disputes := Next(disputes, s);
    }

    /** `autoAssign`: the arbitrator selected for the deal of the dispute is assigned to it. Whatever
        `maxConcurrent` this call was given, its arbitrator ends within it, and nobody else gains a case. */
    method SelectAndAssign(i: nat, deals: map<string, Deal>, table: seq<Profile>, filter: Filter) returns (r: Result<Candidate>)
      requires UniqueUsers(table)
      modifies this
      ensures r.Ok? <==> i < |old(disputes)| && old(disputes)[i].dealId in deals && IsOpen(old(disputes)[i].status)
                         && Candidates(table, deals[old(disputes)[i].dealId], filter, old(disputes)) != {}
      ensures r.Err? ==> disputes == old(disputes)
      ensures r.Ok? ==> Best(r.value, Candidates(table, deals[old(disputes)[i].dealId], filter, old(disputes)))
                        && disputes == Next(old(disputes), On(i, Assign(r.value.userId)))
      // Told from the rows: the dispute was not yet under review, the arbitrator is the one of the qualifying
      // profiles that is least loaded, then rated highest, then first, and now reviews it.
      ensures r.Ok? <==>
              && i < |old(disputes)| && old(disputes)[i].dealId in deals
              && old(disputes)[i].status in {Opened, WaitingSellerResponse, WaitingBuyerEvidence, WaitingSellerEvidence, PendingArbitrator}
              && exists p :: p in table && Qualifies(p, deals[old(disputes)[i].dealId], filter, old(disputes))
      ensures r.Ok? ==>
                var w, deal := r.value, deals[old(disputes)[i].dealId];
                && (exists q :: q in table && Qualifies(q, deal, filter, old(disputes)) && Describes(w, q, old(disputes)))
                && (forall p | p in table && Qualifies(p, deal, filter, old(disputes)) ::
                      && w.activeCases <= Load(old(disputes), p.userId)
                      && (w.activeCases == Load(old(disputes), p.userId) ==> w.rating >= RatingOf(p))
                      && (w.activeCases == Load(old(disputes), p.userId) && w.rating == RatingOf(p) ==>
                            w.userId == p.userId || StringOrder.Less(w.userId, p.userId)))
                && disputes == old(disputes)[i := old(disputes)[i].(arbitratorId := Some(w.userId), status := UnderReview)]
      ensures r.Ok? ==> Load(disputes, r.value.userId) <= MaxConcurrent(filter)
      ensures r.Ok? ==> forall u | u != r.value.userId :: Load(disputes, u) <= Load(old(disputes), u)
      ensures forall limit | Within(old(disputes), limit) && MaxConcurrent(filter) <= limit :: Within(disputes, limit)
    {
      if i >= |disputes| {
        return Err("Dispute not found");
      }
      r := SelectForDeal(disputes[i].dealId, deals, table, disputes, filter);
      if r.Err? {
        return;
      }
      if !IsOpen(disputes[i].status) {
        return Err("Dispute is not open for arbitrator assignment");
      }
      var u := r.value.userId;
      forall v
        ensures Load(disputes[i := After(disputes[i], Assign(u))], v) <= Load(disputes, v) + if v == u then 1 else 0
      {
        LoadAfterUpdate(disputes, i, After(disputes[i], Assign(u)), v);
      }
      Take(On(i, Assign(u)));
    }
  }
}
