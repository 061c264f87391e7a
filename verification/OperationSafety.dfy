/** Every interleaving of execute, dispatch, cancel, finish, crash and recovery is truthful about what was sent. */
module OperationSafety {
  import opened Wrappers
  import opened Operation

  predicate HoldsGate(p: Proc) {
    p.InGate? || p.Persisted? || p.Sent? || p.Started? || p.Inside? || p.Read?
  }

  predicate DispatchProc(p: Proc) {
    p.Waiting? || p.InGate? || p.Persisted? || p.Sent? || p.Started? || p.Awaiting? || p.NotBegun? || p.Finished? || p.Done?
  }

  /** What the dispatch goroutine knows of its own operation. */
  predicate DispatchKnows(s: Sys, o: OpId, p: Proc)
    requires o in s.db.rows
  {
    var row := s.db.rows[o];
    match p
    case Waiting => o !in s.sent && row.state != Dispatching
    case InGate => o !in s.sent && row.state != Dispatching
    case Persisted => o !in s.sent && row.state == Dispatching && row.attempted
    case Sent => o in s.sent && row.state == Dispatching
    case Started => o in s.sent && o in s.memory.started
    case Awaiting => o in s.sent && o in s.memory.started
    case NotBegun(_) => o !in s.sent
    case _ => true
  }

  predicate OpInv(s: Sys, o: OpId) {
    && (o in s.db.rows ==> (s.db.rows[o].terminal <==> s.db.rows[o].state != Queued && s.db.rows[o].state != Dispatching))
    && (o in s.sent ==> o in s.db.rows && s.db.rows[o].attempted && s.db.rows[o].state != Queued && !NotSent(s.db.rows[o].state))
    && (o in s.db.rows && (s.db.rows[o].state == Succeeded || s.db.rows[o].state == Rejected) ==> o in s.sent)
    && (o in s.memory.started ==> o in s.sent)
    && (o in s.sent && !s.db.rows[o].terminal ==>
          o in s.memory.started || (Dispatch(o) in s.threads && s.threads[Dispatch(o)].Sent?))
    && (Dispatch(o) in s.threads ==>
          && o in s.db.rows && DispatchProc(s.threads[Dispatch(o)]) && DispatchKnows(s, o, s.threads[Dispatch(o)])
          && (HoldsGate(s.threads[Dispatch(o)]) <==> s.gate == Some(Dispatch(o))))
    && (s.gate == Some(Dispatch(o)) ==> Dispatch(o) in s.threads)
  }

  predicate ClientInv(s: Sys, n: nat) {
    && (Client(n) in s.threads ==>
          var p := s.threads[Client(n)];
          && (p.Execute? || p.Created? || p.Cancel? || p.Uncontrolled? || p.AtGate? || p.Inside? || p.Read? || p.Done?)
          && (HoldsGate(p) <==> s.gate == Some(Client(n)))
          && (p.Created? <==> s.memory.tokensMu == Some(Client(n)))
          && (p.Created? ==> p.op in s.db.rows && p.op !in s.sent && s.db.rows[p.op].state != Dispatching && Dispatch(p.op) !in s.threads)
          && (p.Read? ==> p.started == (p.op in s.memory.started)))
    && (s.gate == Some(Client(n)) ==> Client(n) in s.threads)
    && (s.memory.tokensMu == Some(Client(n)) ==> Client(n) in s.threads)
  }

  ghost predicate Inv(s: Sys) {
    && (forall o :: OpInv(s, o)) && (forall n :: ClientInv(s, n))
    && (s.memory.tokensMu.Some? ==> s.memory.tokensMu.value.Client?)
    && (forall i, j :: 0 <= i < j < |s.sent| ==> s.sent[i] != s.sent[j])
  }

  // ---------------------------------------------------------------- frames

  /** Nothing that concerns operation `x` changed. */
  predicate SameOp(s: Sys, after: Sys, x: OpId) {
    && (x in after.db.rows <==> x in s.db.rows) && (x in s.db.rows ==> after.db.rows[x] == s.db.rows[x])
    && (x in after.sent <==> x in s.sent) && (x in after.memory.started <==> x in s.memory.started)
    && (Dispatch(x) in after.threads <==> Dispatch(x) in s.threads)
    && (Dispatch(x) in s.threads ==> after.threads[Dispatch(x)] == s.threads[Dispatch(x)])
    && (after.gate == Some(Dispatch(x)) <==> s.gate == Some(Dispatch(x)))
  }

  lemma SameOpInv(s: Sys, after: Sys, x: OpId)
    requires OpInv(s, x) && SameOp(s, after, x)
    ensures OpInv(after, x)
  {
  }

  /** Nothing that concerns client `n` changed. */
  predicate SameClient(s: Sys, after: Sys, n: nat) {
    && (Client(n) in after.threads <==> Client(n) in s.threads)
    && (Client(n) in s.threads ==> after.threads[Client(n)] == s.threads[Client(n)])
    && (after.gate == Some(Client(n)) <==> s.gate == Some(Client(n)))
    && (after.memory.tokensMu == Some(Client(n)) <==> s.memory.tokensMu == Some(Client(n)))
  }

  lemma SameClientInv(s: Sys, after: Sys, n: nat)
    requires ClientInv(s, n) && SameClient(s, after, n)
    requires Client(n) in s.threads && s.threads[Client(n)].Created? ==> SameOp(s, after, s.threads[Client(n)].op)
    requires Client(n) in s.threads && s.threads[Client(n)].Read? ==>
               (s.threads[Client(n)].op in after.memory.started <==> s.threads[Client(n)].op in s.memory.started)
    ensures ClientInv(after, n)
  {
  }

  // ---------------------------------------------------------------- steps

  lemma DispatchFrame(s: Sys, o: OpId, i: Input, x: OpId)
    requires Dispatch(o) in s.threads && (HoldsGate(s.threads[Dispatch(o)]) ==> s.gate == Some(Dispatch(o))) && x != o
    ensures SameOp(s, StepDispatch(s, Dispatch(o), o, s.threads[Dispatch(o)], i), x)
  {
  }

  lemma DispatchFrameClient(s: Sys, o: OpId, i: Input, n: nat)
    requires Dispatch(o) in s.threads && (HoldsGate(s.threads[Dispatch(o)]) ==> s.gate == Some(Dispatch(o)))
    ensures SameClient(s, StepDispatch(s, Dispatch(o), o, s.threads[Dispatch(o)], i), n)
  {
  }

  lemma DispatchOwn(s: Sys, o: OpId, i: Input)
    requires Dispatch(o) in s.threads && OpInv(s, o)
    ensures OpInv(StepDispatch(s, Dispatch(o), o, s.threads[Dispatch(o)], i), o)
  {
    var row := s.db.rows[o];
    match s.threads[Dispatch(o)]
    case Waiting =>
    case InGate =>
    case Persisted =>
    case Sent =>
    case Started =>
    case Awaiting => assert !row.terminal ==> !NotSent(Answer(i.outcome));
    case NotBegun(_) =>
    case Finished =>
    case _ =>
  }

  lemma DispatchKeeps(s: Sys, o: OpId, i: Input)
    requires Inv(s) && Dispatch(o) in s.threads
    ensures Inv(StepDispatch(s, Dispatch(o), o, s.threads[Dispatch(o)], i))
  {
    var p := s.threads[Dispatch(o)];
    var after := StepDispatch(s, Dispatch(o), o, p, i);
    assert OpInv(s, o);
    DispatchOwn(s, o, i);
    assert after.sent == s.sent || (o !in s.sent && after.sent == s.sent + [o]);
    hide OpInv, ClientInv, StepDispatch;
    forall x ensures OpInv(after, x) {
      if x != o {
        DispatchFrame(s, o, i, x);
        SameOpInv(s, after, x);
      }
    }
    forall n ensures ClientInv(after, n) {
      DispatchFrameClient(s, o, i, n);
      DispatchKeepsClient(s, o, i, n);
    }
    assert after.memory.tokensMu == s.memory.tokensMu by { DispatchKeepsMutex(s, o, i); }
  }

  lemma DispatchKeepsMutex(s: Sys, o: OpId, i: Input)
    requires Dispatch(o) in s.threads
    ensures StepDispatch(s, Dispatch(o), o, s.threads[Dispatch(o)], i).memory.tokensMu == s.memory.tokensMu
  {
  }

  /** A client cannot be inside the gate while this goroutine raises its started flag there. */
  lemma DispatchKeepsClient(s: Sys, o: OpId, i: Input, n: nat)
    requires Dispatch(o) in s.threads && OpInv(s, o) && ClientInv(s, n)
    ensures ClientInv(StepDispatch(s, Dispatch(o), o, s.threads[Dispatch(o)], i), n)
  {
    var after := StepDispatch(s, Dispatch(o), o, s.threads[Dispatch(o)], i);
    DispatchFrameClient(s, o, i, n);
    if Client(n) in s.threads && s.threads[Client(n)].Created? {
      DispatchFrame(s, o, i, s.threads[Client(n)].op);
    }
    SameClientInv(s, after, n);
  }

  lemma ExecuteKeeps(s: Sys, n: nat, req: ExecuteRequest, i: Input)
    requires Inv(s) && Client(n) in s.threads && s.threads[Client(n)] == Execute(req)
    ensures Inv(StepExecute(s, Client(n), req, i))
  {
    var after := StepExecute(s, Client(n), req, i);
    forall x ensures OpInv(after, x) {
      assert OpInv(s, x) && ClientInv(s, n);
      if x != i.id || i.id in s.db.rows {
        ExecuteFrame(s, n, req, i, x);
        SameOpInv(s, after, x);
      }
    }
    forall m ensures ClientInv(after, m) {
      assert ClientInv(s, m) && OpInv(s, i.id);
      ExecuteKeepsClient(s, n, req, i, m);
    }
    assert ClientInv(s, n);
    assert after.sent == s.sent;
  }

  lemma ExecuteFrame(s: Sys, n: nat, req: ExecuteRequest, i: Input, x: OpId)
    requires Client(n) in s.threads && (x != i.id || i.id in s.db.rows)
    ensures SameOp(s, StepExecute(s, Client(n), req, i), x)
  {
  }

  lemma ExecuteKeepsClient(s: Sys, n: nat, req: ExecuteRequest, i: Input, m: nat)
    requires Client(n) in s.threads && s.threads[Client(n)] == Execute(req) && ClientInv(s, m) && OpInv(s, i.id)
    ensures ClientInv(StepExecute(s, Client(n), req, i), m)
  {
    if req.scope !in s.db.requests && Create(s.db, req, i.id).1.Ok? {
      CreateFacts(s.db, req, i.id);
    }
    hide Create, Alive;
  }

  lemma CreateFacts(db: Db, req: ExecuteRequest, id: OpId)
    requires req.scope !in db.requests && Create(db, req, id).1.Ok?
    ensures var after := Create(db, req, id).0;
            id !in db.rows && id in after.rows && after.rows == db.rows[id := after.rows[id]] && after.rows[id].state == Queued
  {
  }

  lemma CreatedKeeps(s: Sys, n: nat, token: string, op: OpId)
    requires Inv(s) && Client(n) in s.threads && s.threads[Client(n)] == Created(token, op)
    ensures Inv(StepCreated(s, Client(n), token, op))
  {
    var after := StepCreated(s, Client(n), token, op);
    assert ClientInv(s, n);
    forall x ensures OpInv(after, x) { assert OpInv(s, x); }
    forall m ensures ClientInv(after, m) { assert ClientInv(s, m); }
  }

  lemma CancelFrame(s: Sys, n: nat, x: OpId)
    requires Client(n) in s.threads && (HoldsGate(s.threads[Client(n)]) ==> s.gate == Some(Client(n)))
    requires s.threads[Client(n)].Read? ==> s.threads[Client(n)].op != x
    ensures SameOp(s, StepCancel(s, Client(n), s.threads[Client(n)]), x)
  {
  }

  /** A canceler inside the gate read the started flag under the same gate, so what it writes is true. */
  lemma CancelOwn(s: Sys, n: nat)
    requires Client(n) in s.threads && s.threads[Client(n)].Read? && ClientInv(s, n) && OpInv(s, s.threads[Client(n)].op)
    ensures OpInv(StepCancel(s, Client(n), s.threads[Client(n)]), s.threads[Client(n)].op)
  {
  }

  lemma CancelKeeps(s: Sys, n: nat)
    requires Inv(s) && Client(n) in s.threads
    ensures Inv(StepCancel(s, Client(n), s.threads[Client(n)]))
  {
    var after := StepCancel(s, Client(n), s.threads[Client(n)]);
    assert ClientInv(s, n);
    assert after.sent == s.sent && after.memory == s.memory;
    forall x ensures OpInv(after, x) {
      assert OpInv(s, x);
      if s.threads[Client(n)].Read? && s.threads[Client(n)].op == x {
        CancelOwn(s, n);
      } else {
        CancelFrame(s, n, x);
        SameOpInv(s, after, x);
      }
    }
    forall m ensures ClientInv(after, m) {
      assert ClientInv(s, m);
      CancelKeepsClient(s, n, m);
    }
  }

  lemma CancelKeepsClient(s: Sys, n: nat, m: nat)
    requires Client(n) in s.threads && ClientInv(s, n) && ClientInv(s, m)
    ensures ClientInv(StepCancel(s, Client(n), s.threads[Client(n)]), m)
  {
  }

  lemma RecoverKeeps(s: Sys)
    requires Inv(s)
    ensures Inv(Next(s, CrashAndRecover))
  {
    var after := Next(s, CrashAndRecover);
    forall x ensures OpInv(after, x) { assert OpInv(s, x); }
    forall m ensures ClientInv(after, m) { }
  }

  lemma NextKeeps(s: Sys, a: Action)
    requires Inv(s)
    ensures Inv(Next(s, a))
  {
    hide StepDispatch, StepExecute, StepCreated, StepCancel;
    match a
    case Preview(token, record) =>
      forall x ensures OpInv(Next(s, a), x) { assert OpInv(s, x); }
      forall m ensures ClientInv(Next(s, a), m) { assert ClientInv(s, m); }
    case Call(n, p) =>
      forall x ensures OpInv(Next(s, a), x) { assert OpInv(s, x); }
      forall m ensures ClientInv(Next(s, a), m) { assert ClientInv(s, m) && ClientInv(s, n); }
    case CrashAndRecover => RecoverKeeps(s);
    case Run(t, i) =>
      if t in s.threads {
        if t.Dispatch? {
          DispatchKeeps(s, t.op, i);
        } else {
          assert ClientInv(s, t.n);
          if s.threads[t].Execute? {
            ExecuteKeeps(s, t.n, s.threads[t].req, i);
          } else if s.threads[t].Created? {
            CreatedKeeps(s, t.n, s.threads[t].token, s.threads[t].op);
          } else {
            CancelKeeps(s, t.n);
          }
        }
      }
  }

  lemma {:induction false} AfterInv(actions: seq<Action>)
    ensures Inv(After(actions))
  {
    hide Next;
    if actions != [] {
      AfterInv(actions[..|actions| - 1]);
      NextKeeps(After(actions[..|actions| - 1]), actions[|actions| - 1]);
    }
  }

  // ---------------------------------------------------------------- theorems

  /** An operation recorded as not sent never entered a round trip; one recorded as answered did, and whatever was
      entered had its durable dispatch record first. */
  lemma RecordsAreTruthful(actions: seq<Action>, o: OpId)
    requires o in After(actions).db.rows
    ensures var row := After(actions).db.rows[o];
            && (NotSent(row.state) || row.state == Queued ==> o !in After(actions).sent)
            && (row.state == Succeeded || row.state == Rejected ==> o in After(actions).sent)
            && (o in After(actions).sent ==> row.attempted)
  {
    hide Next;
    AfterInv(actions);
    assert OpInv(After(actions), o);
  }

  /** No operation enters more than one round trip. */
  lemma SentAtMostOnce(actions: seq<Action>, i: nat, j: nat)
    requires i < |After(actions).sent| && j < |After(actions).sent| && After(actions).sent[i] == After(actions).sent[j]
    ensures i == j
  {
    hide Next;
    AfterInv(actions);
  }

  /** What is settled stays: terminal rows, and the operation a request scope stands for. */
  predicate Settled(db: Db, after: Db) {
    && (forall o :: o in db.rows ==> o in after.rows && (db.rows[o].terminal ==> after.rows[o].terminal && after.rows[o].state == db.rows[o].state))
    && (forall scope :: scope in db.requests ==> scope in after.requests && after.requests[scope] == db.requests[scope])
    && (forall scope :: scope in db.commands ==> scope in after.commands && after.commands[scope] == db.commands[scope])
  }

  lemma NextSettled(s: Sys, a: Action)
    ensures Settled(s.db, Next(s, a).db)
  {
    match a
    case Run(t, i) =>
      if t in s.threads && t.Dispatch? { DispatchSettled(s, t, s.threads[t], i); }
      else if t in s.threads { ClientSettled(s, t, s.threads[t], i); }
    case _ =>
  }

  lemma DispatchSettled(s: Sys, t: Tid, p: Proc, i: Input)
    requires t.Dispatch?
    ensures Settled(s.db, StepDispatch(s, t, t.op, p, i).db)
  {
  }

  lemma ClientSettled(s: Sys, t: Tid, p: Proc, i: Input)
    requires t.Client?
    ensures Settled(s.db, Step(s, t, p, i).db)
  {
    hide ApplyCancel, StepExecute, Settled;
    SettledRefl(s.db);
    match p
    case Execute(req) => ExecuteSettled(s, t, req, i);
    case Created(token, op) =>
    case Uncontrolled(op, req) => CancelSettled(s.db, op, req, false, false);
    case Read(op, req, started) => CancelSettled(s.db, op, req, started, true);
    case _ =>
  }

  lemma SettledRefl(db: Db)
    ensures Settled(db, db)
  {
  }

  lemma ExecuteSettled(s: Sys, t: Tid, req: ExecuteRequest, i: Input)
    ensures Settled(s.db, StepExecute(s, t, req, i).db)
  {
  }

  lemma CancelSettled(db: Db, op: OpId, req: CancelRequest, started: bool, allowActive: bool)
    ensures Settled(db, ApplyCancel(db, op, req, started, allowActive).0)
  {
  }

  lemma {:induction false} SettledForever(actions: seq<Action>, more: seq<Action>)
    ensures Settled(After(actions).db, After(actions + more).db)
  {
    hide Next;
    if more == [] {
      assert actions + more == actions;
    } else {
      var init, last := more[..|more| - 1], more[|more| - 1];
      SettledForever(actions, init);
      var all := actions + more;
      assert all[..|all| - 1] == actions + init && all[|all| - 1] == last;
      NextSettled(After(actions + init), last);
    }
  }

  /** "Not sent" is a promise about the future: such an operation is never sent later either. */
  lemma NotSentForever(actions: seq<Action>, more: seq<Action>, o: OpId)
    requires o in After(actions).db.rows && NotSent(After(actions).db.rows[o].state)
    ensures o !in After(actions + more).sent
  {
    hide Next;
    AfterInv(actions);
    assert OpInv(After(actions), o);
    SettledForever(actions, more);
    RecordsAreTruthful(actions + more, o);
  }

  /** A crash and recovery leaves nothing open, and calls nothing unsent that was sent. */
  lemma RecoverySettles(actions: seq<Action>, o: OpId)
    requires o in After(actions).db.rows
    ensures var before, after := After(actions), Next(After(actions), CrashAndRecover);
            && after.db.rows[o].terminal && after.threads == map[] && after.sent == before.sent
            && (o in before.sent ==> !NotSent(after.db.rows[o].state))
            && (before.db.rows[o].state == Dispatching ==> after.db.rows[o].state == OutcomeUnknown)
            && Next(after, CrashAndRecover).db == after.db
  {
    var before := After(actions);
    AfterInv(actions);
    NextKeeps(before, CrashAndRecover);
    var after := Next(before, CrashAndRecover);
    forall x | x in before.db.rows ensures RecoverRow(RecoverRow(before.db.rows[x])) == RecoverRow(before.db.rows[x]) {
      assert OpInv(before, x);
    }
    assert OpInv(before, o) && OpInv(after, o);
  }
}
