/** Report persistence and the verified closure transition, in place. */
module ClosureService {
  import opened Domain
  import opened Tables
  import opened CaseTransactions
  import opened ClosureTransactions
  import opened Database

  class Reports {
    const db: Store
    const tenant: Id

    constructor (db: Store, tenant: Id)
      ensures this.db == db && this.tenant == tenant
    {
      this.db, this.tenant := db, tenant;
    }

    /** Stores a report once; storing it again answers the stored one. */
    method Record(r: Report) returns (answer: Answer<Report>)
      modifies db
      ensures Performs(ClosureTransactions.Record(old(db.State()), tenant, r), old(db.State()), db.State(), answer)
    {
      hide WellFormed;
      if !WellFormed(r, tenant) { return Raised(ReportInvalid); }
      var c := r.body.caseId;
      if c !in db.cases || db.cases[c].tenant != tenant { return Raised(CaseUnavailable); }
      if r.runId in db.reports { return if db.reports[r.runId] != r then Raised(ReportInvalid) else Done(r); }
      if db.cases[c].status.Terminal() { return Raised(StaleEvaluation); }
      db.reports := db.reports[r.runId := r];
      answer := Done(r);
    }
  }

  class Closures {
    const db: Store
    const tenant: Id
    const reader: Reader
    const judge: Judge

    constructor (db: Store, tenant: Id, reader: Reader, judge: Judge)
      ensures this.db == db && this.tenant == tenant && this.reader == reader && this.judge == judge
    {
      this.db, this.tenant, this.reader, this.judge := db, tenant, reader, judge;
    }

    /** Answers a second close of a case from its closure record, if everything still stands. */
    method Reclose(r: Report, now: Time) returns (answer: Answer<ClosureResult>)
      requires r.body.caseId in db.cases && r.body.caseId in db.closures
      ensures answer ==
        var c := r.body.caseId;
        if db.cases[c].status != ClosedVerified || db.closures[c].reportId != r.reportId then Raised(StaleEvaluation)
        else if reader(db.State(), c, now).refused then Raised(PolicyRefused)
        else if !StillStands(reader(db.State(), c, now), r) then Raised(ClosureViolation)
        else Done(AlreadyClosed(db.closures[c]))
    {
      var c := r.body.caseId;
      if db.cases[c].status != ClosedVerified || db.closures[c].reportId != r.reportId { return Raised(StaleEvaluation); }
      var current := reader(db.State(), c, now);
      if current.refused { return Raised(PolicyRefused); }
      answer := if StillStands(current, r) then Done(AlreadyClosed(db.closures[c])) else Raised(ClosureViolation);
    }

    /** Re-evaluates under the Case lock and closes only if the fresh judgement is this very PASS. */
    method Close(r: Report, now: Time) returns (answer: Answer<ClosureResult>)
      modifies db
      ensures Performs(ClosureTransactions.Close(old(db.State()), reader, judge, tenant, r, now), old(db.State()), db.State(), answer)
    {
      hide StillStands, ClosureRecordOf, NextRevision;
      var c := r.body.caseId;
      if r.body.verdict != PASS { return Raised(PassRequired); }
      if r.reportId != r.body { return Raised(ReportInvalid); }
      if c !in db.cases || db.cases[c].tenant != tenant { return Raised(CaseUnavailable); }
      if r.runId !in db.reports || db.reports[r.runId] != r { return Raised(ReportNotPersisted); }
      if c in db.closures {
        answer := Reclose(r, now);
        return;
      }
      if db.cases[c].status.Terminal() { return Raised(ClosureViolation); }
      var state := reader(db.State(), c, now);
      var judged := judge(state, now);
      if state.refused || judged.None? { return Raised(PolicyRefused); }
      if judged.value.verdict != PASS || judged.value.snapshot != r.body.snapshot || judged.value != r.reportId {
        return Raised(StaleEvaluation);
      }
      if db.cases[c].revision != r.body.snapshot.caseRevision { return Raised(StaleEvaluation); }
      db.cases := db.cases[c := db.cases[c].(status := ClosedVerified, revision := NextRevision(r.body.snapshot.caseRevision, now))];
      db.closures := db.closures[c := ClosureRecordOf(r, now)];
      answer := Done(ClosedNow(db.closures[c]));
    }
  }
}
