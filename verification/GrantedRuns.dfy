/** The transaction a grant call runs inside the gate is the import protocol's StartRun. */
module GrantedRuns {
  import opened Wrappers
  import Import

  /** StartRun asks the ledger first: a known command changes nothing. Otherwise it inserts at most the one segment it was
      given, before the grant expires, and in the same transaction the ledger row that answers every retry. */
  lemma StartRunIsOneTransaction(s: Import.Sys, req: Import.StartRequest, now: nat)
    ensures var next := Import.StartRun(s, req, now).next;
            if req.scope in s.db.commands || next == s then next == s
            else && now < req.grantExpiresAt && req.segment !in s.db.segments
                 && next.db.segments.Keys == s.db.segments.Keys + {req.segment}
                 && next.db.commands.Keys == s.db.commands.Keys + {req.scope}
                 && Import.Lookup(next.db, req.scope, req.digest).Ok?
                 && (forall digest :: digest != req.digest ==> Import.Lookup(next.db, req.scope, digest).Err?)
  {
    hide Import.Lives, Import.Sendings, Import.ApplyTask;
  }

  /** A retried command is answered from the ledger, whether or not the first answer arrived. */
  lemma RetriedStartIsAnswered(s: Import.Sys, req: Import.StartRequest, now: nat, retry: Import.StartRequest, later: nat)
    requires req.scope !in s.db.commands && Import.StartRun(s, req, now).next != s
    requires retry.scope == req.scope && retry.digest == req.digest && retry.profile == s.db.job.profile
    ensures var next := Import.StartRun(s, req, now).next;
            Import.StartRun(next, retry, later) == Import.Step(next, Ok(true))
  {
    hide Import.Lives, Import.Sendings;
  }
}
