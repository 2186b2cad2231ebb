/**
 The anti-scam store, its automatic threshold and its publish queue
 (services/user-service/src/modules/anti-scam/anti-scam.service.ts, anti-scam-publish.scheduler.ts,
 anti-scam-publisher.service.ts). One call runs at a time and database calls succeed.
 */
module AntiScam {
  import opened Outcomes
  import Decimal
  import ScamText
  import StringOrder

  type Id = nat

  datatype RecordStatus = Reported | Confirmed | Published | Rejected
  datatype ReportStatus = Pending | Approved | Dismissed
  datatype Source = AutoThreshold | Manual

  datatype Record = Record(
    telegramId: int,
    username: Option<string>,
    displayName: Option<string>,
    status: RecordStatus,
    distinctReporterCount: nat,
    confirmationSource: Option<Source>,
    confirmedAt: Option<int>,
    moderatedBy: Option<Id>,
    publishedAt: Option<int>,
    dbChannelMessage: Option<int>,
    evidenceMessage: Option<int>)

  datatype Report = Report(
    recordId: Id,
    reporter: Id,
    reporterTelegramId: Option<int>,
    reason: string,
    contentHash: string,
    screenshots: seq<string>,
    status: ReportStatus,
    moderatedBy: Option<Id>)

  datatype Target = Target(telegramId: Option<int>, username: Option<string>, displayName: Option<string>)

  datatype Complaint = Complaint(
    reporter: Id, reporterTelegramId: Option<int>, target: Target, reason: string, screenshots: seq<string>)

  datatype Filed = Filed(report: Id, record: Id, autoConfirmed: bool, isNewRecord: bool)

  /** `hash` stands for SHA-256, `lower` for `toLowerCase`. */
  datatype Settings = Settings(
    threshold: int,
    minScreenshots: int,
    maxScreenshots: int,
    batchSize: nat,
    hash: string -> string,
    lower: ScamText.Lowering)

  function HashReason(reason: string, s: Settings): string {
    s.hash(ScamText.Normalise(reason, s.lower))
  }

  // ---------- Queries ----------

  function ActiveReports(reports: map<Id, Report>, record: Id): set<Id> {
    set r | r in reports && reports[r].recordId == record && !reports[r].status.Dismissed?
  }

  /** `countDistinctReporters` counts reports. */
  function CountDistinctReporters(reports: map<Id, Report>, record: Id): nat {
    |ActiveReports(reports, record)|
  }

  /** The reporters it stands for. */
  ghost function ActiveReporters(reports: map<Id, Report>, record: Id): set<Id> {
    set r | r in ActiveReports(reports, record) :: reports[r].reporter
  }

  predicate HasAccount(records: map<Id, Record>, id: Id, telegramId: int) {
    id in records && records[id].telegramId == telegramId
  }

  function WithHints(r: Record, t: Target, s: Settings): Record {
    r.(username := if t.username.Some? && t.username.value != "" then Some(NormalizeUsername(t.username.value, s)) else r.username,
       displayName := if t.displayName.Some? && t.displayName.value != "" then t.displayName else r.displayName)
  }

  function NormalizeUsername(u: string, s: Settings): string {
    var t := Decimal.Trim(u);
    s.lower(if t != [] && t[0] == '@' then t[1..] else t)
  }

  /** `markConfirmed` */
  function MarkConfirmed(r: Record, source: Source, moderator: Option<Id>, now: int): Record {
    r.(status := Confirmed, confirmationSource := Some(source), confirmedAt := Some(now), moderatedBy := moderator)
  }

  /** A record confirmed by a moderator. */
  function ByModerator(r: Record, count: nat, moderator: Id, now: int): Record {
    MarkConfirmed(r.(distinctReporterCount := count), Manual, Some(moderator), now)
  }

  function NewRecord(t: Target, s: Settings): Record
    requires t.telegramId.Some?
  {
    Record(t.telegramId.value,
           if t.username.Some? && t.username.value != "" then Some(NormalizeUsername(t.username.value, s)) else None,
           t.displayName, Reported, 0, None, None, None, None, None, None)
  }

  /** A record after one more complaint against it was counted. */
  function AfterFiling(r: Record, t: Target, count: nat, s: Settings, now: int): Record {
    var counted := WithHints(r, t, s).(distinctReporterCount := count);
    if counted.status.Reported? && count >= s.threshold then MarkConfirmed(counted, AutoThreshold, None, now) else counted
  }

  /** `reportRepo.update({ record, status: PENDING }, { status, moderatedById })` */
  function Moderate(reports: map<Id, Report>, record: Id, status: ReportStatus, moderator: Id): map<Id, Report> {
    map r | r in reports ::
      if reports[r].recordId == record && reports[r].status.Pending?
      then reports[r].(status := status, moderatedBy := Some(moderator)) else reports[r]
  }

  /** After `postEvidenceForRecord`: the first message a channel returned is kept. */
  function Posted(r: Record, post: Option<int>): Record {
    if r.evidenceMessage.Some? then r else r.(evidenceMessage := post)
  }

  function NewReport(record: Id, c: Complaint, contentHash: string): Report {
    Report(record, c.reporter, c.reporterTelegramId, Decimal.Trim(c.reason), contentHash, c.screenshots, Pending, None)
  }

  /** The record a complaint is against is counted anew, confirmed if that meets the threshold, and
      only then posted. */
  predicate CountedAs(c: Complaint, id: Id, autoConfirmed: bool, before: map<Id, Record>, after: map<Id, Record>,
                      reports: map<Id, Report>, s: Settings, now: int, post: Option<int>)
    requires c.target.telegramId.Some?
  {
    && (autoConfirmed <==> RecordFor(c, id, before, s).status.Reported? && Counted(c, id, before, reports, s, now).status.Confirmed?)
    && after == before[id := if autoConfirmed then Posted(Counted(c, id, before, reports, s, now), post) else Counted(c, id, before, reports, s, now)]
  }

  function RecordFor(c: Complaint, id: Id, records: map<Id, Record>, s: Settings): Record
    requires c.target.telegramId.Some?
  {
    if id in records then records[id] else NewRecord(c.target, s)
  }

  function Counted(c: Complaint, id: Id, before: map<Id, Record>, reports: map<Id, Report>, s: Settings, now: int): Record
    requires c.target.telegramId.Some?
  {
    AfterFiling(RecordFor(c, id, before, s), c.target, CountDistinctReporters(reports, id), s, now)
  }

  /** `id` is the record of the account, or the one to be created for it. */
  predicate AccountRecord(records: map<Id, Record>, id: Id, newRecord: Id, telegramId: int) {
    if id in records then records[id].telegramId == telegramId
    else id == newRecord && forall other | other in records :: records[other].telegramId != telegramId
  }

  /** Complaint `c` may be stored against record `id`, the account's own or one to be created. */
  predicate Fileable(c: Complaint, contentHash: string, id: Id, newRecord: Id, records: map<Id, Record>, reports: map<Id, Report>) {
    && c.target.telegramId.Some?
    && AccountRecord(records, id, newRecord, c.target.telegramId.value)
    && NewText(contentHash, reports)
    && NewReporter(id, c.reporter, reports)
  }

  /** `reporter` has not reported the account. */
  predicate Unreported(telegramId: int, reporter: Id, records: map<Id, Record>, reports: map<Id, Report>) {
    forall p | p in reports && HasAccount(records, reports[p].recordId, telegramId) :: reports[p].reporter != reporter
  }

  predicate NewText(contentHash: string, reports: map<Id, Report>) {
    forall p | p in reports :: reports[p].contentHash != contentHash
  }

  predicate NewReporter(id: Id, reporter: Id, reports: map<Id, Report>) {
    forall p | p in reports :: !(reports[p].recordId == id && reports[p].reporter == reporter)
  }

  /** What `fileReport` demands of a complaint. */
  predicate Acceptable(c: Complaint, contentHash: string, records: map<Id, Record>, reports: map<Id, Report>, s: Settings) {
    && s.minScreenshots <= |c.screenshots| <= s.maxScreenshots
    && |Decimal.Trim(c.reason)| >= 3
    && (c.target.telegramId.Some? && c.reporterTelegramId.Some? ==> c.target.telegramId != c.reporterTelegramId)
    && NewText(contentHash, reports)
    && c.target.telegramId.Some?
    && Unreported(c.target.telegramId.value, c.reporter, records, reports)
  }

  /** `findRecord`: by account, otherwise by user name. */
  predicate Known(t: Target, records: map<Id, Record>, s: Settings) {
    || (t.telegramId.Some? && exists id | id in records :: records[id].telegramId == t.telegramId.value)
    || (t.username.Some? && t.username.value != "" && exists id | id in records :: records[id].username == Some(NormalizeUsername(t.username.value, s)))
  }

  // ---------- Invariants ----------

  ghost predicate ReportsOk(records: map<Id, Record>, reports: map<Id, Report>) {
    && (forall r | r in reports :: reports[r].recordId in records)
    && (forall p, q | p in reports && q in reports && p != q :: reports[p].contentHash != reports[q].contentHash)
    && forall p, q | p in reports && q in reports && p != q && reports[p].recordId == reports[q].recordId ::
         reports[p].reporter != reports[q].reporter
  }

  /** Every stored hash is that of the stored reason. */
  ghost predicate HashesOk(reports: map<Id, Report>, s: Settings) {
    forall r | r in reports :: reports[r].contentHash == HashReason(reports[r].reason, s)
  }

  ghost predicate CountOk(id: Id, r: Record, reports: map<Id, Report>, s: Settings) {
    r.status.Reported? ==> r.distinctReporterCount == CountDistinctReporters(reports, id) < s.threshold
  }

  ghost predicate CountsOk(records: map<Id, Record>, reports: map<Id, Report>, s: Settings) {
    forall id | id in records :: CountOk(id, records[id], reports, s)
  }

  /** One record per account; what is confirmed was confirmed at its own moment, no later than `clock`. */
  ghost predicate RecordsOk(records: map<Id, Record>, clock: int) {
    && (forall p, q | p in records && q in records && p != q :: records[p].telegramId != records[q].telegramId)
    && (forall id | id in records && records[id].status.Confirmed? :: records[id].confirmedAt.Some? && records[id].confirmedAt.value <= clock)
    && forall p, q | p in records && q in records && p != q && records[p].status.Confirmed? && records[q].status.Confirmed? ::
         records[p].confirmedAt != records[q].confirmedAt
  }

  // ---------- Lemmas ----------

  /** Counting reports is counting reporters: nobody reports one account twice. */
  lemma CountIsReporters(records: map<Id, Record>, reports: map<Id, Report>, record: Id)
    requires ReportsOk(records, reports)
    ensures CountDistinctReporters(reports, record) == |ActiveReporters(reports, record)|
  {
    var ids := ActiveReports(reports, record);
    ImageSize(ids, reports);
    assert ActiveReporters(reports, record) == set r | r in ids :: reports[r].reporter;
  }

  lemma {:induction false} ImageSize(ids: set<Id>, reports: map<Id, Report>)
    requires forall r | r in ids :: r in reports
    requires forall p, q | p in ids && q in ids && p != q :: reports[p].reporter != reports[q].reporter
    ensures |set r | r in ids :: reports[r].reporter| == |ids|
  {
    if ids != {} {
      var r :| r in ids;
      var rest := ids - {r};
      ImageSize(rest, reports);
      assert (set q | q in ids :: reports[q].reporter) == (set q | q in rest :: reports[q].reporter) + {reports[r].reporter};
      assert reports[r].reporter !in set q | q in rest :: reports[q].reporter;
    }
  }

  /** No two stored complaints say the same: their words differ, whatever the case and spacing. */
  lemma StoredReasonsDiffer(records: map<Id, Record>, reports: map<Id, Report>, s: Settings, p: Id, q: Id)
    requires ReportsOk(records, reports) && HashesOk(reports, s) && p in reports && q in reports && p != q
    ensures ScamText.Words(s.lower(reports[p].reason)) != ScamText.Words(s.lower(reports[q].reason))
  {
    ScamText.SameNormalForm(reports[p].reason, reports[q].reason, s.lower);
    assert reports[p].contentHash != reports[q].contentHash;
  }

  /** The counts stay right when one record and the reports against it change. */
  lemma CountsAfter(records: map<Id, Record>, reports: map<Id, Report>, reports': map<Id, Report>, s: Settings, id: Id, r: Record)
    requires CountsOk(records, reports, s) && CountOk(id, r, reports', s)
    requires forall other | other in records && other != id :: ActiveReports(reports', other) == ActiveReports(reports, other)
    ensures CountsOk(records[id := r], reports', s)
  {
    forall other | other in records && other != id
      ensures CountOk(other, records[other], reports', s)
    {
      assert CountOk(other, records[other], reports, s);
    }
  }

  lemma RecordsAfter(records: map<Id, Record>, clock: int, id: Id, r: Record, now: int)
    requires RecordsOk(records, clock) && clock <= now
    requires forall other | other in records && other != id :: records[other].telegramId != r.telegramId
    requires r.status.Confirmed? ==>
               || (id in records && records[id].status.Confirmed? && r.confirmedAt == records[id].confirmedAt)
               || (r.confirmedAt == Some(now) && clock < now)
    ensures RecordsOk(records[id := r], now)
  {
  }

  lemma ReportAdded(records: map<Id, Record>, reports: map<Id, Report>, id: Id, r: Report)
    requires ReportsOk(records, reports) && id !in reports && r.recordId in records
    requires forall p | p in reports :: reports[p].contentHash != r.contentHash
    requires forall p | p in reports && reports[p].recordId == r.recordId :: reports[p].reporter != r.reporter
    ensures ReportsOk(records, reports[id := r])
  {
  }

  lemma HashAdded(reports: map<Id, Report>, id: Id, r: Report, s: Settings)
    requires HashesOk(reports, s) && r.contentHash == HashReason(r.reason, s)
    ensures HashesOk(reports[id := r], s)
  {
  }

  lemma ActiveAfterAdding(reports: map<Id, Report>, id: Id, r: Report, record: Id)
    requires id !in reports && r.status.Pending?
    ensures ActiveReports(reports[id := r], record) ==
            if r.recordId == record then ActiveReports(reports, record) + {id} else ActiveReports(reports, record)
  {
  }

  /** What moderation may change of the reports: not whom, what or by whom. */
  ghost predicate SameComplaints(before: map<Id, Report>, after: map<Id, Report>) {
    before.Keys == after.Keys && forall r | r in before ::
      && after[r].recordId == before[r].recordId && after[r].reporter == before[r].reporter
      && after[r].contentHash == before[r].contentHash && after[r].reason == before[r].reason
  }

  lemma SameComplaintsKeep(records: map<Id, Record>, before: map<Id, Report>, after: map<Id, Report>, s: Settings)
    requires ReportsOk(records, before) && HashesOk(before, s) && SameComplaints(before, after)
    ensures ReportsOk(records, after) && HashesOk(after, s)
  {
  }

  /** Moderating the pending reports of one record leaves every other record's count alone, and
      approving leaves its own alone too. */
  lemma ModerateKeeps(reports: map<Id, Report>, record: Id, status: ReportStatus, moderator: Id)
    ensures SameComplaints(reports, Moderate(reports, record, status, moderator))
    ensures forall other | other != record || status.Approved? ::
              ActiveReports(Moderate(reports, record, status, moderator), other) == ActiveReports(reports, other)
  {
  }

  lemma DismissedOne(reports: map<Id, Report>, id: Id, m: Option<Id>)
    requires id in reports
    ensures var after := reports[id := reports[id].(status := Dismissed, moderatedBy := m)];
            && SameComplaints(reports, after)
            && (forall other | other != reports[id].recordId :: ActiveReports(after, other) == ActiveReports(reports, other))
            && CountDistinctReporters(after, reports[id].recordId) <= CountDistinctReporters(reports, reports[id].recordId)
  {
    var after := reports[id := reports[id].(status := Dismissed, moderatedBy := m)];
    assert ActiveReports(after, reports[id].recordId) == ActiveReports(reports, reports[id].recordId) - {id};
  }

  // ---------- The queue ----------

  /** The confirmed records that were confirmed before `id`. */
  function Ahead(records: map<Id, Record>, id: Id): set<Id>
    requires id in records && records[id].confirmedAt.Some?
  {
    set c | c in records && records[c].status.Confirmed? && records[c].confirmedAt.Some?
      && records[c].confirmedAt.value < records[id].confirmedAt.value
  }

  function Waiting(records: map<Id, Record>): set<Id> {
    set c | c in records && records[c].status.Confirmed?
  }

  /** Between two states, a record that waits throughout has no more ahead of it than before. */
  ghost predicate NoLaterThan(before: map<Id, Record>, after: map<Id, Record>) {
    forall id | id in before && id in after && before[id].status.Confirmed? && after[id].status.Confirmed?
      && before[id].confirmedAt.Some? && before[id].confirmedAt == after[id].confirmedAt :: Ahead(after, id) <= Ahead(before, id)
  }

  /** Changing one record, without confirming it anew earlier than anything, delays nobody. */
  lemma DelaysNobody(records: map<Id, Record>, clock: int, id: Id, r: Record, now: int)
    requires RecordsOk(records, clock) && clock <= now
    requires r.status.Confirmed? ==>
               || (id in records && records[id].status.Confirmed? && r.confirmedAt == records[id].confirmedAt)
               || (r.confirmedAt == Some(now) && clock < now)
    ensures NoLaterThan(records, records[id := r])
  {
  }

  predicate ConfirmedBefore(records: map<Id, Record>, p: Id, q: Id) {
    && p in records && q in records && records[p].confirmedAt.Some? && records[q].confirmedAt.Some?
    && records[p].confirmedAt.value < records[q].confirmedAt.value
  }

  /** `batch` lists waiting records, earliest first, and leaves out only later ones. */
  ghost predicate Earliest(records: map<Id, Record>, batch: seq<Id>) {
    && (forall i | 0 <= i < |batch| :: batch[i] in Waiting(records))
    && (forall i, j | 0 <= i < j < |batch| :: ConfirmedBefore(records, batch[i], batch[j]))
    && forall i, id | 0 <= i < |batch| && id in Waiting(records) && id !in batch :: ConfirmedBefore(records, batch[i], id)
  }

  lemma EarliestSnoc(records: map<Id, Record>, batch: seq<Id>, id: Id)
    requires Earliest(records, batch) && id in Waiting(records) && id !in batch
    requires forall other | other in Waiting(records) && other !in batch && other != id :: ConfirmedBefore(records, id, other)
    ensures Earliest(records, batch + [id])
  {
    var more := batch + [id];
    forall i, other | 0 <= i < |more| && other in Waiting(records) && other !in more
      ensures ConfirmedBefore(records, more[i], other)
    {
      assert id in more;
      if i < |batch| {
        assert more[i] == batch[i];
      }
    }
  }

  lemma EarliestExtends(records: map<Id, Record>, batch: seq<Id>, rest: set<Id>, id: Id)
    requires Earliest(records, batch) && rest == Waiting(records) - StringOrder.Elements(batch) && id in rest
    requires forall other | other in rest && other != id :: ConfirmedBefore(records, id, other)
    ensures Earliest(records, batch + [id])
    ensures rest - {id} == Waiting(records) - StringOrder.Elements(batch + [id]) && |rest - {id}| == |rest| - 1
  {
    assert StringOrder.Elements(batch + [id]) == StringOrder.Elements(batch) + {id};
    forall other | other in Waiting(records) && other !in batch && other != id
      ensures ConfirmedBefore(records, id, other)
    {
      assert other in rest;
    }
    EarliestSnoc(records, batch, id);
  }

  /** `ORDER BY confirmedAt ASC LIMIT limit` over the waiting records. */
  method TakeEarliest(records: map<Id, Record>, ghost clock: int, limit: nat) returns (batch: seq<Id>)
    requires RecordsOk(records, clock)
    ensures Earliest(records, batch)
    ensures |batch| == if |Waiting(records)| < limit then |Waiting(records)| else limit
  {
    batch := [];
    var rest := Waiting(records);
    while |batch| < limit && rest != {}
      invariant |batch| <= limit && |batch| + |rest| == |Waiting(records)|
      invariant rest == Waiting(records) - StringOrder.Elements(batch)
      invariant Earliest(records, batch)
    {
      var id := EarliestOf(records, clock, rest);
      EarliestExtends(records, batch, rest, id);
      batch := batch + [id];
      rest := rest - {id};
    }
    if rest == {} {
      assert |rest| == 0;
    }
  }

  /** The one of `ids` that was confirmed first. */
  method EarliestOf(records: map<Id, Record>, ghost clock: int, ids: set<Id>) returns (id: Id)
    requires RecordsOk(records, clock) && ids <= Waiting(records) && ids != {}
    ensures id in ids && forall other | other in ids && other != id :: ConfirmedBefore(records, id, other)
  {
    id :| id in ids;
    var rest := ids - {id};
    while rest != {}
      invariant rest <= ids && id in ids && id !in rest
      invariant forall other | other in ids && other !in rest && other != id :: ConfirmedBefore(records, id, other)
      decreases rest
    {
      var next :| next in rest;
      assert next in Waiting(records) && id in Waiting(records);
      assert records[next].confirmedAt != records[id].confirmedAt;
      rest := rest - {next};
      if records[next].confirmedAt.value < records[id].confirmedAt.value {
        id := next;
      }
    }
  }

  function Publish(r: Record, message: Option<int>, at: int): Record {
    r.(status := Published, publishedAt := Some(at), dbChannelMessage := message)
  }

  function PublishAll(records: map<Id, Record>, batch: seq<Id>, message: Option<int>, at: int): map<Id, Record> {
    map id | id in records :: if id in batch then Publish(records[id], message, at) else records[id]
  }

  lemma PublishKeeps(records: map<Id, Record>, reports: map<Id, Report>, s: Settings, clock: int, batch: seq<Id>, message: Option<int>, at: int)
    requires ReportsOk(records, reports) && CountsOk(records, reports, s) && RecordsOk(records, clock)
    ensures ReportsOk(PublishAll(records, batch, message, at), reports)
    ensures CountsOk(PublishAll(records, batch, message, at), reports, s)
    ensures RecordsOk(PublishAll(records, batch, message, at), clock)
  {
    var after := PublishAll(records, batch, message, at);
    forall id | id in after
      ensures CountOk(id, after[id], reports, s)
    {
      assert CountOk(id, records[id], reports, s);
    }
  }

  /** Whoever waits through it has `n` fewer ahead afterwards. */
  ghost predicate Advances(before: map<Id, Record>, after: map<Id, Record>, n: nat) {
    NoLaterThan(before, after) &&
    forall id | id in before && id in after && before[id].status.Confirmed? && after[id].status.Confirmed?
      && before[id].confirmedAt.Some? && before[id].confirmedAt == after[id].confirmedAt :: |Ahead(after, id)| + n <= |Ahead(before, id)|
  }

  lemma MembersCount(records: map<Id, Record>, batch: seq<Id>)
    requires forall i, j | 0 <= i < j < |batch| :: ConfirmedBefore(records, batch[i], batch[j])
    ensures |StringOrder.Elements(batch)| == |batch|
  {
    forall i, j | 0 <= i < j < |batch|
      ensures batch[i] != batch[j]
    {
      assert ConfirmedBefore(records, batch[i], batch[j]);
    }
    StringOrder.SizeIff(batch);
  }

  /** Publishing the earliest `n` takes exactly those from in front of everyone else. */
  lemma TickAdvances(before: map<Id, Record>, batch: seq<Id>, message: Option<int>, at: int)
    requires Earliest(before, batch)
    ensures Advances(before, PublishAll(before, batch, message, at), |batch|)
  {
    var after := PublishAll(before, batch, message, at);
    MembersCount(before, batch);
    forall id | id in before && before[id].status.Confirmed? && after[id].status.Confirmed? && before[id].confirmedAt.Some?
      ensures Ahead(after, id) == Ahead(before, id) - StringOrder.Elements(batch)
      ensures |Ahead(after, id)| + |batch| == |Ahead(before, id)|
    {
      assert id in Waiting(before) && id !in batch;
      assert StringOrder.Elements(batch) <= Ahead(before, id);
      assert Ahead(after, id) == Ahead(before, id) - StringOrder.Elements(batch);
    }
  }

  lemma Overwritten(records: map<Id, Record>, id: Id, counted: Record, post: Option<int>)
    ensures records[id := counted][id := Posted(counted, post)] == records[id := Posted(counted, post)]
  {
  }

  /** Posting evidence touches nothing the queue looks at. */
  lemma PostingKeepsQueue(before: map<Id, Record>, records: map<Id, Record>, id: Id, post: Option<int>)
    requires NoLaterThan(before, records) && id in records
    ensures NoLaterThan(before, records[id := Posted(records[id], post)])
  {
    var after := records[id := Posted(records[id], post)];
    forall w | w in before && w in after && before[w].status.Confirmed? && after[w].status.Confirmed?
      && before[w].confirmedAt.Some? && before[w].confirmedAt == after[w].confirmedAt
      ensures Ahead(after, w) <= Ahead(before, w)
    {
      assert Ahead(after, w) == Ahead(records, w);
    }
  }

  /** A dismissed accusation is not revived. */
  ghost predicate KeepsRejected(before: map<Id, Record>, after: map<Id, Record>) {
    forall id | id in before && before[id].status.Rejected? :: id in after && after[id].status.Rejected?
  }

  /** A complaint against a rejected account is stored, but does not revive the accusation. */
  lemma FilingKeepsRejected(c: Complaint, id: Id, autoConfirmed: bool, before: map<Id, Record>, after: map<Id, Record>,
                            reports: map<Id, Report>, s: Settings, now: int, post: Option<int>)
    requires c.target.telegramId.Some? && CountedAs(c, id, autoConfirmed, before, after, reports, s, now, post)
    ensures KeepsRejected(before, after)
  {
    assert id in before && before[id].status.Rejected? ==> Counted(c, id, before, reports, s, now).status.Rejected?;
  }

  // ---------- What filing, moderating and publishing come to ----------

  /** A user name is kept in lower case and without the `@` that may stand in front of it. */
  lemma UsernameKept(name: string, s: Settings)
    requires name != [] && name[0] != '@' && Decimal.Trim(name) == name
    ensures NormalizeUsername(name, s) == s.lower(name)
    ensures NormalizeUsername(['@'] + name, s) == s.lower(name)
  {
    assert Decimal.TrimStart(['@'] + name) == ['@'] + name;
    ScamText.WordsOfTrimEnd(Decimal.TrimStart(name));
    assert (['@'] + name)[1..] == name;
  }

  /** No record is that of the target's account, or else carries its user name. */
  ghost predicate Unknown(t: Target, records: map<Id, Record>, s: Settings) {
    forall id | id in records ::
      && Some(records[id].telegramId) != t.telegramId
      && (t.username.Some? && t.username.value != "" ==> records[id].username != Some(NormalizeUsername(t.username.value, s)))
  }

  lemma UnknownIff(t: Target, records: map<Id, Record>, s: Settings)
    ensures Unknown(t, records, s) <==> !Known(t, records, s)
  {
  }

  /** The pending reports against `record`, and no others, are given `status` by the moderator. */
  ghost predicate Moderated(before: map<Id, Report>, after: map<Id, Report>, record: Id, status: ReportStatus, moderator: Id) {
    && before.Keys == after.Keys
    && (forall p | p in before && (before[p].recordId != record || before[p].status in {Approved, Dismissed}) :: after[p] == before[p])
    && forall p | p in before && before[p].recordId == record && before[p].status == Pending ::
         && after[p].status == status && after[p].moderatedBy == Some(moderator)
         && after[p] == before[p].(status := after[p].status, moderatedBy := after[p].moderatedBy)
  }

  lemma OneChanged(records: map<Id, Record>, id: Id, r: Record)
    ensures OthersKept(id, records, records[id := r])
  {
  }

  lemma ModerateIs(reports: map<Id, Report>, record: Id, status: ReportStatus, moderator: Id)
    ensures Moderated(reports, Moderate(reports, record, status, moderator), record, status, moderator)
  {
  }

  /** The record was confirmed by the moderator with the number of its complainants, and may have been
      posted; nothing else about it changed. */
  ghost predicate ConfirmedManually(before: Record, after: Record, complainants: set<Id>, moderator: Id, now: int, post: Option<int>) {
    && after.status == Confirmed && after.confirmationSource == Some(Manual) && after.confirmedAt == Some(now)
    && after.moderatedBy == Some(moderator) && after.distinctReporterCount == |complainants|
    && after.evidenceMessage == (if before.evidenceMessage.Some? then before.evidenceMessage else post)
    && after.telegramId == before.telegramId && after.username == before.username && after.displayName == before.displayName
    && after.publishedAt == before.publishedAt && after.dbChannelMessage == before.dbChannelMessage
  }

  lemma ConfirmationSaid(records: map<Id, Record>, reports: map<Id, Report>, id: Id, moderator: Id, now: int, post: Option<int>)
    requires ReportsOk(records, reports) && id in records
    ensures ConfirmedManually(records[id], Posted(ByModerator(records[id], CountDistinctReporters(reports, id), moderator, now), post),
                              Complainants(reports, id), moderator, now, post)
  {
    CountIsReporters(records, reports, id);
    assert Complainants(reports, id) == ActiveReporters(reports, id);
  }

  /** Exactly the records of the batch were published, in the given message. */
  ghost predicate PublishedIn(before: map<Id, Record>, after: map<Id, Record>, batch: seq<Id>, message: Option<int>, at: int) {
    && before.Keys == after.Keys
    && (forall id | id in before && id !in batch :: after[id] == before[id])
    && forall id | id in before && id in batch ::
         && after[id].status == Published && after[id].publishedAt == Some(at) && after[id].dbChannelMessage == message
         && after[id] == before[id].(status := after[id].status, publishedAt := after[id].publishedAt,
                                     dbChannelMessage := after[id].dbChannelMessage)
  }

  lemma PublishAllIs(before: map<Id, Record>, batch: seq<Id>, message: Option<int>, at: int)
    ensures PublishedIn(before, PublishAll(before, batch, message, at), batch, message, at)
  {
  }

  /** Who has complained about the account of record `id` and was not dismissed. */
  ghost function Complainants(reports: map<Id, Report>, id: Id): set<Id> {
    set p | p in reports && reports[p].recordId == id && reports[p].status in {Pending, Approved} :: reports[p].reporter
  }

  /** The state of the record `id` after a complaint was stored against its account. An account that had
      no record or only a reported one is counted by its complainants, and confirmed with the threshold-th
      of them; any other keeps its state. */
  ghost predicate StateAfterFiling(id: Id, autoConfirmed: bool, before: map<Id, Record>, after: map<Id, Record>,
                                   reports: map<Id, Report>, threshold: int, now: int, post: Option<int>) {
    var n := |Complainants(reports, id)|;
    && id in after && after[id].distinctReporterCount == n
    && (autoConfirmed <==> (id !in before || before[id].status == Reported) && n >= threshold)
    && (autoConfirmed ==>
          && after[id].status == Confirmed && after[id].confirmationSource == Some(AutoThreshold)
          && after[id].confirmedAt == Some(now) && after[id].moderatedBy == None
          && after[id].evidenceMessage ==
             if id in before && before[id].evidenceMessage.Some? then before[id].evidenceMessage else post)
    && (!autoConfirmed && id in before ==>
          && after[id].status == before[id].status && after[id].confirmationSource == before[id].confirmationSource
          && after[id].confirmedAt == before[id].confirmedAt && after[id].moderatedBy == before[id].moderatedBy
          && after[id].evidenceMessage == before[id].evidenceMessage)
    && (!autoConfirmed && id !in before ==>
          && after[id].status == Reported && after[id].confirmationSource == None && after[id].confirmedAt == None
          && after[id].moderatedBy == None && after[id].evidenceMessage == None)
  }

  /** Whom the record is about after a complaint: the account, with the names last given for it. */
  ghost predicate NamedAfterFiling(id: Id, t: Target, before: map<Id, Record>, after: map<Id, Record>, s: Settings) {
    && id in after && Some(after[id].telegramId) == t.telegramId
    && (t.username.Some? && t.username.value != "" ==> after[id].username == Some(NormalizeUsername(t.username.value, s)))
    && (t.username.None? || t.username.value == "" ==> after[id].username == if id in before then before[id].username else None)
    && (t.displayName.Some? && t.displayName.value != "" ==> after[id].displayName == t.displayName)
    && (t.displayName.None? || t.displayName.value == "" ==>
          after[id].displayName == if id in before then before[id].displayName else t.displayName)
    && (id in before ==> after[id].publishedAt == before[id].publishedAt && after[id].dbChannelMessage == before[id].dbChannelMessage)
    && (id !in before ==> after[id].publishedAt == None && after[id].dbChannelMessage == None)
  }

  /** Only the record `id` changes, or is added. */
  ghost predicate OthersKept(id: Id, before: map<Id, Record>, after: map<Id, Record>) {
    after.Keys == before.Keys + {id} && forall other | other in before && other != id :: after[other] == before[other]
  }

  lemma FilingSaid(c: Complaint, id: Id, autoConfirmed: bool, before: map<Id, Record>, after: map<Id, Record>,
                   reports: map<Id, Report>, s: Settings, now: int, post: Option<int>)
    requires c.target.telegramId.Some? && CountedAs(c, id, autoConfirmed, before, after, reports, s, now, post)
    requires ReportsOk(after, reports) && (id in before ==> Some(before[id].telegramId) == c.target.telegramId)
    ensures StateAfterFiling(id, autoConfirmed, before, after, reports, s.threshold, now, post)
    ensures NamedAfterFiling(id, c.target, before, after, s)
    ensures OthersKept(id, before, after)
  {
    CountIsReporters(after, reports, id);
    assert Complainants(reports, id) == ActiveReporters(reports, id);
  }

  lemma ReplacedKeepsRejected(before: map<Id, Record>, id: Id, r: Record)
    requires id in before && before[id].status.Rejected? ==> r.status.Rejected?
    ensures KeepsRejected(before, before[id := r])
  {
  }

  /** The record after one of the reports against it was dismissed. */
  function Recounted(r: Record, reports: map<Id, Report>, id: Id): Record {
    if r.status.Reported? then r.(distinctReporterCount := CountDistinctReporters(reports, id)) else r
  }

  lemma DismissalCounts(records: map<Id, Record>, reports: map<Id, Report>, s: Settings, id: Id, m: Option<Id>)
    requires CountsOk(records, reports, s) && id in reports && reports[id].recordId in records
    ensures var dismissed := reports[id := reports[id].(status := Dismissed, moderatedBy := m)];
            var record := reports[id].recordId;
            CountOk(record, Recounted(records[record], dismissed, record), dismissed, s)
  {
    DismissedOne(reports, id, m);
    assert CountOk(reports[id].recordId, records[reports[id].recordId], reports, s);
  }

  lemma SameRecords(records: map<Id, Record>, records': map<Id, Record>, reports: map<Id, Report>)
    requires ReportsOk(records, reports) && records.Keys <= records'.Keys
    ensures ReportsOk(records', reports)
  {
  }

  // ---------- The service ----------

  class Store {
    const settings: Settings
    var records: map<Id, Record>
    var reports: map<Id, Report>
    /** The latest moment anything was confirmed. */
    ghost var clock: int

    ghost predicate Valid()
      reads this
    {
      && settings.threshold >= 1
      && ReportsOk(records, reports)
      && HashesOk(reports, settings)
      && CountsOk(records, reports, settings)
      && RecordsOk(records, clock)
    }

    constructor (settings: Settings)
      requires settings.threshold >= 1
      ensures Valid() && records == map[] && reports == map[] && this.settings == settings
    {
      this.settings := settings;
      records, reports, clock := map[], map[], 0;
    }

    method FindByAccount(telegramId: int) returns (found: Option<Id>)
      requires Valid()
      ensures found.Some? ==> HasAccount(records, found.value, telegramId)
      ensures found.None? ==> forall id | id in records :: records[id].telegramId != telegramId
    {
      if id :| id in records && records[id].telegramId == telegramId {
        return Some(id);
      }
      return None;
    }

    /** One record and the reports against it are written. */
    method Save(id: Id, after: Record, complaints: map<Id, Report>, ghost now: int)
      requires Valid() && clock <= now
      requires ReportsOk(records[id := after], complaints) && HashesOk(complaints, settings)
      requires CountOk(id, after, complaints, settings)
      requires forall other | other in records && other != id ::
                 ActiveReports(complaints, other) == ActiveReports(reports, other) && records[other].telegramId != after.telegramId
      requires after.status.Confirmed? ==>
                 || (id in records && records[id].status.Confirmed? && after.confirmedAt == records[id].confirmedAt)
                 || (after.confirmedAt == Some(now) && clock < now)
      modifies this
      ensures Valid() && clock == now
      ensures records == old(records)[id := after] && reports == complaints
      ensures NoLaterThan(old(records), records)
    {
      CountsAfter(records, reports, complaints, settings, id, after);
      RecordsAfter(records, clock, id, after, now);
      DelaysNobody(records, clock, id, after, now);
      records := records[id := after];
      reports := complaints;
      clock := now;
    }

    /** `postEvidenceForRecord`: at most once per record. `post` is the message the channel returned,
        none if the channel or the bot is missing or posting failed. */
    method PostEvidence(id: Id, post: Option<int>)
      requires Valid()
      modifies this
      ensures Valid() && clock == old(clock) && reports == old(reports)
      ensures records == (if id in old(records) then old(records)[id := Posted(old(records)[id], post)] else old(records))
      ensures NoLaterThan(old(records), records)
    {
      if id !in records {
        return;
      }
      assert CountOk(id, records[id], reports, settings);
      Save(id, Posted(records[id], post), reports, clock);
    }

    /** `fileReport`. `newRecord` and `newReport` are the identifiers the database would generate. */
    method FileReport(c: Complaint, newRecord: Id, newReport: Id, now: int, post: Option<int>) returns (r: Result<Filed>)
      requires Valid() && newRecord !in records && newReport !in reports && clock < now
      modifies this
      ensures Valid()
      ensures r.Ok? <==> Acceptable(c, HashReason(Decimal.Trim(c.reason), settings), old(records), old(reports), settings)
      ensures r.Err? ==> records == old(records) && reports == old(reports)
      ensures r.Ok? ==> r.value.report == newReport
                        && Fileable(c, HashReason(Decimal.Trim(c.reason), settings), r.value.record, newRecord, old(records), old(reports))
      ensures r.Ok? ==> (r.value.isNewRecord <==> Unknown(c.target, old(records), settings))
      ensures r.Ok? ==> reports == old(reports)[newReport := NewReport(r.value.record, c, HashReason(Decimal.Trim(c.reason), settings))]
      // The state and the names of the one record that changes, and the report stored.
      ensures r.Ok? ==> StateAfterFiling(r.value.record, r.value.autoConfirmed, old(records), records, reports, settings.threshold, now, post)
      ensures r.Ok? ==> NamedAfterFiling(r.value.record, c.target, old(records), records, settings)
      ensures r.Ok? ==> OthersKept(r.value.record, old(records), records)
      ensures r.Ok? ==> newReport in reports && reports[newReport] == Report(
                          r.value.record, c.reporter, c.reporterTelegramId, Decimal.Trim(c.reason),
                          settings.hash(ScamText.Normalise(Decimal.Trim(c.reason), settings.lower)), c.screenshots, Pending, None)
      ensures NoLaterThan(old(records), records)
      ensures KeepsRejected(old(records), records)
    {
      var isNewRecord := !Known(c.target, records, settings);
      UnknownIff(c.target, records, settings);
      var contentHash := HashReason(Decimal.Trim(c.reason), settings);
      var target := Admit(c, contentHash, newRecord);
      if target.Err? {
        return Err(target.message);
      }
      var id := target.value;
      var autoConfirmed := StoreAndPost(c, contentHash, id, newRecord, newReport, now, post);
      return Ok(Filed(newReport, id, autoConfirmed, isNewRecord));
    }

    /** `fileReport`, once the complaint is admitted. */
    method StoreAndPost(c: Complaint, contentHash: string, id: Id, ghost newRecord: Id, newReport: Id, now: int, post: Option<int>)
      returns (autoConfirmed: bool)
      requires Valid() && newReport !in reports && clock < now
      requires Fileable(c, contentHash, id, newRecord, records, reports) && contentHash == HashReason(Decimal.Trim(c.reason), settings)
      modifies this
      ensures Valid() && NoLaterThan(old(records), records)
      ensures reports == old(reports)[newReport := NewReport(id, c, contentHash)]
      ensures CountedAs(c, id, autoConfirmed, old(records), records, reports, settings, now, post)
      ensures StateAfterFiling(id, autoConfirmed, old(records), records, reports, settings.threshold, now, post)
      ensures NamedAfterFiling(id, c.target, old(records), records, settings)
      ensures OthersKept(id, old(records), records) && KeepsRejected(old(records), records)
    {
      autoConfirmed := StoreReport(c, contentHash, id, newRecord, newReport, now);
      if autoConfirmed {
        PostingKeepsQueue(old(records), records, id, post);
        PostEvidence(id, post);
        Overwritten(old(records), id, Counted(c, id, old(records), reports, settings, now), post);
      }
      FilingKeepsRejected(c, id, autoConfirmed, old(records), records, reports, settings, now, post);
      FilingSaid(c, id, autoConfirmed, old(records), records, reports, settings, now, post);
    }

    /** `fileReport`, every check of the complaint, and the record it is against. */
    method Admit(c: Complaint, contentHash: string, newRecord: Id) returns (r: Result<Id>)
      requires Valid() && newRecord !in records
      ensures r.Ok? <==> Acceptable(c, contentHash, records, reports, settings)
      ensures r.Ok? ==> Fileable(c, contentHash, r.value, newRecord, records, reports)
    {
      if |c.screenshots| < settings.minScreenshots || |c.screenshots| > settings.maxScreenshots {
        return Err("screenshots");
      }
      var reason := Decimal.Trim(c.reason);
      if |reason| < 3 {
        return Err("Reason is too short");
      }
      if c.target.telegramId.Some? && c.reporterTelegramId.Some? && c.target.telegramId == c.reporterTelegramId {
        return Err("You cannot report yourself");
      }
      if !NewText(contentHash, reports) {
        return Err("This exact complaint text was already submitted");
      }
      if c.target.telegramId.None? {
        return Err("Target Telegram id is required to file a report");
      }
      r := Resolve(c.target.telegramId.value, c.reporter, newRecord);
    }

    /** The record of an account, existing or to be created, unless `reporter` already reported it. */
    method Resolve(telegramId: int, reporter: Id, newRecord: Id) returns (r: Result<Id>)
      requires Valid() && newRecord !in records
      ensures r.Ok? <==> Unreported(telegramId, reporter, records, reports)
      ensures r.Ok? ==> AccountRecord(records, r.value, newRecord, telegramId) && NewReporter(r.value, reporter, reports)
    {
      var existing := FindByAccount(telegramId);
      var id := if existing.Some? then existing.value else newRecord;
      if p :| p in reports && reports[p].recordId == id && reports[p].reporter == reporter {
        return Err("You have already reported this account");
      }
      return Ok(id);
    }

    /** `fileReport`, from the creation of the report to the saving of the record. */
    method StoreReport(c: Complaint, contentHash: string, id: Id, ghost newRecord: Id, newReport: Id, now: int) returns (autoConfirmed: bool)
      requires Valid() && newReport !in reports && clock < now
      requires Fileable(c, contentHash, id, newRecord, records, reports) && contentHash == HashReason(Decimal.Trim(c.reason), settings)
      modifies this
      ensures Valid() && NoLaterThan(old(records), records)
      ensures reports == old(reports)[newReport := NewReport(id, c, contentHash)]
      ensures autoConfirmed <==> RecordFor(c, id, old(records), settings).status.Reported? && Counted(c, id, old(records), reports, settings, now).status.Confirmed?
      ensures records == old(records)[id := Counted(c, id, old(records), reports, settings, now)]
      ensures StateAfterFiling(id, autoConfirmed, old(records), records, reports, settings.threshold, now, None)
      ensures NamedAfterFiling(id, c.target, old(records), records, settings) && OthersKept(id, old(records), records)
    {
      var record := RecordFor(c, id, records, settings);
      var report := NewReport(id, c, contentHash);
      var complaints := reports[newReport := report];
      var after := AfterFiling(record, c.target, CountDistinctReporters(complaints, id), settings, now);
      autoConfirmed := record.status.Reported? && after.status.Confirmed?;
      forall other | other != id
        ensures ActiveReports(complaints, other) == ActiveReports(reports, other)
      {
        ActiveAfterAdding(reports, newReport, report, other);
      }
      forall other | other in records && other != id
        ensures records[other].telegramId != after.telegramId
      {
      }
      ReportAdded(records[id := after], reports, newReport, report);
      HashAdded(reports, newReport, report, settings);
      Save(id, after, complaints, now);
      FilingSaid(c, id, autoConfirmed, old(records), records, reports, settings, now, None);
    }

    /** `confirmScammer`, up to the saving of the record. */
    method MarkManually(id: Id, moderator: Id, now: int)
      requires Valid() && clock < now && id in records
      modifies this
      ensures Valid() && NoLaterThan(old(records), records)
      ensures Moderated(old(reports), reports, id, Approved, moderator)
      ensures records == old(records)[id := ByModerator(old(records)[id], CountDistinctReporters(old(reports), id), moderator, now)]
    {
      var moderated := Moderate(reports, id, Approved, moderator);
      ModerateKeeps(reports, id, Approved, moderator);
      ModerateIs(reports, id, Approved, moderator);
      var after := ByModerator(records[id], CountDistinctReporters(moderated, id), moderator, now);
      SameComplaintsKeep(records, reports, moderated, settings);
      SameRecords(records, records[id := after], moderated);
      Save(id, after, moderated, now);
    }

    /** `confirmScammer` */
    method ConfirmScammer(id: Id, moderator: Id, now: int, post: Option<int>) returns (r: Result<()>)
      requires Valid() && clock < now
      modifies this
      ensures Valid() && (r.Ok? <==> id in old(records))
      ensures r.Err? || old(records)[id].status in {Confirmed, Published} ==> records == old(records) && reports == old(reports)
      ensures r.Ok? && old(records)[id].status in {Reported, Rejected} ==>
                && Moderated(old(reports), reports, id, Approved, moderator)
                && OthersKept(id, old(records), records)
                && ConfirmedManually(old(records)[id], records[id], Complainants(old(reports), id), moderator, now, post)
      // Only a moderator can confirm what was rejected, one record at a time.
      ensures r.Ok? ==> KeepsRejected(old(records) - {id}, records)
      ensures NoLaterThan(old(records), records)
    {
      if id !in records {
        return Err("Scammer record not found");
      }
      if records[id].status in {Confirmed, Published} {
        return Ok(());
      }
      ConfirmAndPost(id, moderator, now, post);
      return Ok(());
    }

    /** `confirmScammer`, for a record that is neither confirmed nor published. */
    method ConfirmAndPost(id: Id, moderator: Id, now: int, post: Option<int>)
      requires Valid() && clock < now && id in records
      modifies this
      ensures Valid() && NoLaterThan(old(records), records)
      ensures Moderated(old(reports), reports, id, Approved, moderator)
      ensures OthersKept(id, old(records), records)
      ensures ConfirmedManually(old(records)[id], records[id], Complainants(old(reports), id), moderator, now, post)
    {
      ghost var before, marked := records, ByModerator(records[id], CountDistinctReporters(reports, id), moderator, now);
      ConfirmationSaid(records, reports, id, moderator, now, post);
      MarkManually(id, moderator, now);
      PostingKeepsQueue(before, records, id, post);
      PostEvidence(id, post);
      Overwritten(before, id, marked, post);
      OneChanged(before, id, Posted(marked, post));
    }

    /** `rejectScammer` */
    method RejectScammer(id: Id, moderator: Id) returns (r: Result<()>)
      requires Valid()
      modifies this
      ensures Valid() && (r.Ok? <==> id in old(records))
      ensures r.Err? ==> records == old(records) && reports == old(reports)
      ensures r.Ok? ==> records == old(records)[id := old(records)[id].(status := Rejected, moderatedBy := Some(moderator))]
                        && Moderated(old(reports), reports, id, Dismissed, moderator)
      ensures NoLaterThan(old(records), records)
      ensures KeepsRejected(old(records), records)
    {
      if id !in records {
        return Err("Scammer record not found");
      }
      var after := records[id].(status := Rejected, moderatedBy := Some(moderator));
      var moderated := Moderate(reports, id, Dismissed, moderator);
      ModerateKeeps(reports, id, Dismissed, moderator);
      ModerateIs(reports, id, Dismissed, moderator);
      SameComplaintsKeep(records, reports, moderated, settings);
      Save(id, after, moderated, clock);
      return Ok(());
    }

    /** `rejectReport`, when there is such a report. */
    method Dismiss(id: Id, moderator: Id)
      requires Valid() && id in reports && reports[id].recordId in records
      modifies this
      ensures Valid() && NoLaterThan(old(records), records)
      ensures reports == old(reports)[id := old(reports)[id].(status := Dismissed, moderatedBy := Some(moderator))]
      ensures var record := old(reports)[id].recordId;
              records == old(records)[record := Recounted(old(records)[record], reports, record)]
    {
      var record := reports[id].recordId;
      var dismissed := reports[id := reports[id].(status := Dismissed, moderatedBy := Some(moderator))];
      var after := Recounted(records[record], dismissed, record);
      DismissedOne(reports, id, Some(moderator));
      DismissalCounts(records, reports, settings, id, Some(moderator));
      SameComplaintsKeep(records, reports, dismissed, settings);
      SameRecords(records, records[record := after], dismissed);
      Save(record, after, dismissed, clock);
    }

    /** `rejectReport` */
    method RejectReport(id: Id, moderator: Id) returns (r: Result<()>)
      requires Valid()
      modifies this
      ensures Valid() && (r.Ok? <==> id in old(reports))
      ensures r.Err? ==> records == old(records) && reports == old(reports)
      ensures r.Ok? ==> reports == old(reports)[id := old(reports)[id].(status := Dismissed, moderatedBy := Some(moderator))]
      ensures r.Ok? ==>
                var record := old(reports)[id].recordId;
                record in old(records) && records == old(records)[record := Recounted(old(records)[record], reports, record)]
      ensures NoLaterThan(old(records), records)
      ensures KeepsRejected(old(records), records)
    {
      if id !in reports {
        return Err("Report not found");
      }
      ghost var before, record := records, reports[id].recordId;
      assert record in records;
      Dismiss(id, moderator);
      ReplacedKeepsRejected(before, record, Recounted(before[record], reports, record));
      return Ok(());
    }

    // ----- The publish queue -----

    /** `findConfirmedUnpublished`: the earliest confirmed records, at most `limit` of them. */
    method FindConfirmedUnpublished(limit: nat) returns (batch: seq<Id>)
      requires Valid()
      ensures Earliest(records, batch)
      ensures |batch| == if |Waiting(records)| < limit then |Waiting(records)| else limit
    {
      batch := TakeEarliest(records, clock, limit);
    }

    /** `publishConfirmedBatch`: one message for the whole batch, then every record of it is marked.
        `sent` is the message, none if the channel or the bot is missing or sending failed. */
    method PublishConfirmedBatch(batch: seq<Id>, sent: Option<int>, at: int) returns (published: nat)
      requires Valid() && Earliest(records, batch)
      modifies this`records
      ensures Valid()
      ensures published == if sent.Some? then |batch| else 0
      ensures records == if sent.Some? then PublishAll(old(records), batch, sent, at) else old(records)
      ensures sent.Some? ==> PublishedIn(old(records), records, batch, sent, at)
    {
      PublishAllIs(records, batch, sent, at);
      if |batch| == 0 {
        return 0;
      }
      if sent.None? {
        return 0;
      }
      var saved := records;
      for i := 0 to |batch|
        invariant saved == PublishAll(records, batch[..i], sent, at)
      {
        assert batch[i] in Waiting(records);
        assert batch[..i + 1] == batch[..i] + [batch[i]];
        saved := saved[batch[i] := Publish(records[batch[i]], sent, at)];
      }
      assert batch[..|batch|] == batch;
      PublishKeeps(records, reports, settings, clock, batch, sent, at);
      records := saved;
      return |batch|;
    }

    /** `publishBatch`, one tick of the scheduler: nothing happens until a whole batch waits. */
    method PublishBatch(enabled: bool, channel: bool, sent: Option<int>, at: int) returns (published: nat)
      requires Valid()
      modifies this`records
      ensures Valid() && NoLaterThan(old(records), records)
      ensures KeepsRejected(old(records), records)
      ensures !(enabled && channel && sent.Some? && |Waiting(old(records))| >= settings.batchSize) ==> published == 0 && records == old(records)
      ensures enabled && channel && sent.Some? && |Waiting(old(records))| >= settings.batchSize ==>
                && published == settings.batchSize
                && Advances(old(records), records, settings.batchSize)
                && exists batch ::
                     Earliest(old(records), batch) && |batch| == settings.batchSize && PublishedIn(old(records), records, batch, sent, at)
    {
      if !enabled || !channel {
        return 0;
      }
      var pending := FindConfirmedUnpublished(settings.batchSize);
      if |pending| < settings.batchSize {
        return 0;
      }
      published := PublishConfirmedBatch(pending, sent, at);
      if sent.Some? {
        TickAdvances(old(records), pending, sent, at);
      }
    }
  }

  // ---------- The bound on waiting ----------

  /** One step of a run: any operation, or a full tick that was sent. */
  datatype Step = Operation | FullTick

  function FullTicks(steps: seq<Step>): nat {
    if steps == [] then 0 else FullTicks(steps[..|steps| - 1]) + if steps[|steps| - 1].FullTick? then 1 else 0
  }

  ghost predicate Run(states: seq<map<Id, Record>>, steps: seq<Step>, batchSize: nat) {
    |states| == |steps| + 1 && forall i | 0 <= i < |steps| ::
      if steps[i].FullTick? then Advances(states[i], states[i + 1], batchSize) else NoLaterThan(states[i], states[i + 1])
  }

  /** `id` waits, under one and the same confirmation, in every state of a run. */
  ghost predicate WaitsThroughout(states: seq<map<Id, Record>>, id: Id, since: int) {
    forall i | 0 <= i < |states| :: id in states[i] && states[i][id].status.Confirmed? && states[i][id].confirmedAt == Some(since)
  }

  /** With `r` records ahead of it, a record that still waits has seen at most `r / batchSize` full
      ticks: the next one after those publishes it, whatever else happens in between. */
  lemma {:induction false} WaitIsBounded(states: seq<map<Id, Record>>, steps: seq<Step>, batchSize: nat, id: Id, since: int)
    requires Run(states, steps, batchSize) && WaitsThroughout(states, id, since)
    ensures FullTicks(steps) * batchSize + |Ahead(states[|steps|], id)| <= |Ahead(states[0], id)|
  {
    if steps != [] {
      var n := |steps| - 1;
      WaitIsBounded(states[..n + 1], steps[..n], batchSize, id, since);
      if steps[n].FullTick? {
        assert Advances(states[n], states[n + 1], batchSize);
        assert FullTicks(steps) * batchSize == FullTicks(steps[..n]) * batchSize + batchSize;
      } else {
        assert NoLaterThan(states[n], states[n + 1]);
        SubsetSize(Ahead(states[n + 1], id), Ahead(states[n], id));
      }
    }
  }

  lemma {:induction false} SubsetSize(a: set<Id>, b: set<Id>)
    requires a <= b
    ensures |a| <= |b|
  {
    assert b == a + (b - a);
  }

  lemma MoreThanQuotient(n: nat, r: nat, b: nat)
    requires b > 0 && n > r / b
    ensures n * b > r
  {
    var q := r / b;
    assert r == b * q + r % b;
    ProductGrows(b, q + 1, n);
    assert b * (q + 1) == b * q + b;
  }

  lemma {:induction false} ProductGrows(b: nat, m: nat, n: nat)
    requires m <= n
    ensures b * m <= b * n == n * b
    decreases n - m
  {
    if m < n {
      ProductGrows(b, m + 1, n);
      assert b * (m + 1) == b * m + b;
    }
  }

  /** So no record waits through more than `r / batchSize` full ticks. */
  lemma PublishedInTime(states: seq<map<Id, Record>>, steps: seq<Step>, batchSize: nat, id: Id, since: int)
    requires batchSize > 0 && Run(states, steps, batchSize)
    requires id in states[0] && states[0][id].confirmedAt == Some(since)
    requires var ahead := set c | c in states[0] && states[0][c].status == Confirmed
                 && states[0][c].confirmedAt.Some? && states[0][c].confirmedAt.value < since;
             FullTicks(steps) > |ahead| / batchSize
    ensures !WaitsThroughout(states, id, since)
  {
    assert Ahead(states[0], id) == set c | c in states[0] && states[0][c].status == Confirmed
        && states[0][c].confirmedAt.Some? && states[0][c].confirmedAt.value < since;
    var r, n := |Ahead(states[0], id)|, FullTicks(steps);
    MoreThanQuotient(n, r, batchSize);
    if WaitsThroughout(states, id, since) {
      WaitIsBounded(states, steps, batchSize, id, since);
    }
  }

  // ---------- Evidence ----------

  /** The screenshots of all the reports, one after the other. */
  function AllScreenshots(reports: seq<Report>): seq<string> {
    if reports == [] then [] else AllScreenshots(reports[..|reports| - 1]) + reports[|reports| - 1].screenshots
  }

  lemma {:induction false} ScreenshotsPrefix(reports: seq<Report>, n: nat)
    requires n <= |reports|
    ensures AllScreenshots(reports[..n]) <= AllScreenshots(reports)
    decreases |reports|
  {
    if n < |reports| {
      var front := reports[..|reports| - 1];
      assert front[..n] == reports[..n];
      ScreenshotsPrefix(front, n);
    } else {
      assert reports[..n] == reports;
    }
  }

  /** `collectScreenshots`: the first `max` of them. */
  method CollectScreenshots(reports: seq<Report>, max: int) returns (fileIds: seq<string>)
    ensures fileIds <= AllScreenshots(reports)
    ensures |fileIds| == if max <= 0 then 0 else if max < |AllScreenshots(reports)| then max else |AllScreenshots(reports)|
  {
    fileIds := [];
    for i := 0 to |reports|
      invariant fileIds == AllScreenshots(reports[..i])
      invariant |fileIds| == 0 || |fileIds| <= max
    {
      assert reports[..i + 1][..i] == reports[..i];
      ScreenshotsPrefix(reports, i + 1);
      var report := reports[i];
      for j := 0 to |report.screenshots|
        invariant fileIds == AllScreenshots(reports[..i]) + report.screenshots[..j]
        invariant |fileIds| == 0 || |fileIds| <= max
      {
        if |fileIds| >= max {
          return;
        }
        assert report.screenshots[..j + 1] == report.screenshots[..j] + [report.screenshots[j]];
        fileIds := fileIds + [report.screenshots[j]];
      }
      assert report.screenshots[..|report.screenshots|] == report.screenshots;
    }
    assert reports[..|reports|] == reports;
  }
}
