/** Recording in the two journal tables is the protocol's write-once step. */
module JournalRefines {
  import J = Journal
  import P = Protocol
  import I = ProtocolInvariant
  import T = ProtocolTheorems

  function StateOf(s: P.JobState): J.JobState { if s.Completed? then J.Completed else J.Failed }

  function OutputOf(row: P.Row): J.StoredOutput { J.StoredOutput(StateOf(row.state), row.body, row.tenant) }

  /** One journaled job: its output row, and a job row with the checksum of that body. */
  ghost predicate RowReads(env: J.Env, t: J.Tables, j: P.JobId, row: P.Row) {
    && j in t.outputs && t.outputs[j] == OutputOf(row)
    && env.durable(j) in t.jobs
    && t.jobs[env.durable(j)].row.state == StateOf(row.state)
    && t.jobs[env.durable(j)].row.checksum == env.hash(row.body)
  }

  /** The tables hold exactly the protocol's rows. */
  ghost predicate Reads(env: J.Env, ids: set<string>, t: J.Tables, rows: map<P.JobId, P.Row>) {
    && J.Paired(env, ids, t) && t.outputs.Keys == rows.Keys
    && forall j :: j in rows ==> RowReads(env, t, j, rows[j])
  }

  /** A result that asks for the row. */
  ghost predicate Asks(env: J.Env, r: J.JobResult, m: P.Msg, row: P.Row) {
    && r.id == m.f.id && r.tenant == row.tenant && env.bodyOf(r.result) == row.body
    && J.Terminal(env, r).Ok? && J.Terminal(env, r).value.state == StateOf(row.state)
  }

  lemma RecordsNew(env: J.Env, t: J.Tables, r: J.JobResult)
    requires r.tenant != "" && J.Terminal(env, r).Ok? && r.id !in t.outputs && env.durable(r.id) !in t.jobs
    ensures J.PgRecord(env, t, r) == (J.Added(env, t, r, J.Terminal(env, r).value), J.Done)
  {}

  lemma NewRowReads(env: J.Env, t: J.Tables, r: J.JobResult, m: P.Msg, row: P.Row)
    requires Asks(env, r, m, row)
    ensures RowReads(env, J.Added(env, t, r, J.Terminal(env, r).value), m.f.id, row)
  {}

  lemma RowKept(env: J.Env, ids: set<string>, t: J.Tables, r: J.JobResult, stored: J.StoredJob, j: P.JobId, row: P.Row)
    requires J.Distinct(env, ids) && j in ids && r.id in ids && r.id != j && stored.id == env.durable(r.id)
    requires RowReads(env, t, j, row)
    ensures RowReads(env, J.Added(env, t, r, stored), j, row)
  {
    assert env.durable(j) != env.durable(r.id);
  }

  lemma RowsKept(env: J.Env, ids: set<string>, t: J.Tables, r: J.JobResult, stored: J.StoredJob,
                 rows: map<P.JobId, P.Row>)
    requires J.Distinct(env, ids) && r.id in ids && stored.id == env.durable(r.id)
    requires Reads(env, ids, t, rows) && r.id !in rows
    ensures forall j :: j in rows ==> RowReads(env, J.Added(env, t, r, stored), j, rows[j])
    ensures J.Added(env, t, r, stored).outputs.Keys == rows.Keys + {r.id}
  {
    forall j | j in rows ensures RowReads(env, J.Added(env, t, r, stored), j, rows[j]) {
      RowKept(env, ids, t, r, stored, j, rows[j]);
    }
  }

  lemma ReadsExtended(env: J.Env, ids: set<string>, t: J.Tables, rows: map<P.JobId, P.Row>, j: P.JobId, row: P.Row)
    requires J.Paired(env, ids, t) && t.outputs.Keys == rows.Keys + {j} && RowReads(env, t, j, row)
    requires forall k :: k in rows ==> RowReads(env, t, k, rows[k])
    ensures Reads(env, ids, t, rows[j := row])
  {}

  lemma NewRow(env: J.Env, ids: set<string>, t: J.Tables, rows: map<P.JobId, P.Row>, r: J.JobResult, m: P.Msg,
               row: P.Row)
    requires J.Distinct(env, ids) && m.f.id in ids && Reads(env, ids, t, rows)
    requires Asks(env, r, m, row) && row.tenant != "" && m.f.id !in rows
    ensures J.PgRecord(env, t, r).1 == J.Done
    ensures Reads(env, ids, J.PgRecord(env, t, r).0, rows[m.f.id := row])
  {
    var stored := J.Terminal(env, r).value;
    RecordsNew(env, t, r);
    J.AddedPaired(env, ids, t, r);
    NewRowReads(env, t, r, m, row);
    RowsKept(env, ids, t, r, stored, rows);
    ReadsExtended(env, ids, J.Added(env, t, r, stored), rows, m.f.id, row);
  }

  lemma OldRow(env: J.Env, ids: set<string>, t: J.Tables, rows: map<P.JobId, P.Row>, r: J.JobResult, m: P.Msg,
               row: P.Row)
    requires Reads(env, ids, t, rows) && Asks(env, r, m, row) && row.tenant != "" && m.f.id in rows
    ensures J.PgRecord(env, t, r).0 == t
    ensures J.PgRecord(env, t, r).1.Done? <==>
              rows[m.f.id].state == row.state && env.hash(rows[m.f.id].body) == env.hash(row.body)
  {
    assert RowReads(env, t, m.f.id, rows[m.f.id]);
  }

  /** The transaction commits exactly when the protocol's step goes on, and leaves tables that
      hold exactly the rows the step leaves; otherwise it changes nothing. */
  lemma RecordRefinesProtocol(env: J.Env, ids: set<string>, t: J.Tables, r: J.JobResult,
                              c: P.Config, x: P.Stores, m: P.Msg, row: P.Row, via: P.Via)
    requires J.Distinct(env, ids) && m.f.id in ids && Reads(env, ids, t, x.p.rows)
    requires Asks(env, r, m, row) && row.tenant != "" && c.checksum == env.hash
    ensures var (t', a), o := J.PgRecord(env, t, r), P.RecordOnce(c, x, m, row, via);
            && (a.Done? <==> o.Go?) && (!a.Done? ==> t' == t)
            && (o.Go? ==> Reads(env, ids, t', o.x.p.rows))
  {
    if m.f.id in x.p.rows {
      OldRow(env, ids, t, x.p.rows, r, m, row);
    } else {
      NewRow(env, ids, t, x.p.rows, r, m, row);
    }
  }

  lemma CommitterRow(c: P.Config, x: P.Stores, pc: P.PC)
    requires I.PcOK(c, x, pc) && pc.Commit?
    ensures pc.row.tenant != ""
  {
    var job := x.h.accepted[pc.m.f.id];
    assert I.MsgOK(x, pc.m) && I.RowOK(c, P.PoliciesOf(x.p, job.tenant), job, pc.row);
  }

  /** In every reachable state, the transaction run by a worker about to commit is its step. */
  lemma RecordRefinesRun(env: J.Env, ids: set<string>, t: J.Tables, r: J.JobResult,
                         c: P.Config, states: seq<P.State>, acts: seq<P.Action>, i: nat, w: P.WorkerId, ch: P.Choice)
    requires T.Supported(c) && P.IsRun(c, states, acts) && i < |states| && w in states[i].workers
    requires states[i].workers[w].pc.Commit? && c.checksum == env.hash
    requires J.Distinct(env, ids) && states[i].workers[w].pc.m.f.id in ids && Reads(env, ids, t, states[i].x.p.rows)
    requires Asks(env, r, states[i].workers[w].pc.m, states[i].workers[w].pc.row)
    ensures var (t', a), o := J.PgRecord(env, t, r), P.Effect(c, states[i].x, states[i].workers[w].pc, ch);
            && (a.Done? <==> o.Go?) && (!a.Done? ==> t' == t)
            && (o.Go? ==> Reads(env, ids, t', o.x.p.rows))
  {
    T.RunInv(c, states, acts, i);
    var pc := states[i].workers[w].pc;
    assert I.WorkerOK(c, states[i].x, states[i].workers[w]);
    CommitterRow(c, states[i].x, pc);
    RecordRefinesProtocol(env, ids, t, r, c, states[i].x, pc.m, pc.row, pc.via);
  }

  // ----- the journal tables beside the run

  ghost predicate RecordOf(env: J.Env, pc: P.PC, r: J.JobResult, t: J.Tables, t': J.Tables)
    requires pc.Commit?
  {
    Asks(env, r, pc.m, pc.row) && t' == J.PgRecord(env, t, r).0
  }

  /** A worker about to commit runs the journal's transaction; nothing else writes the tables. */
  ghost predicate TablesFollow(env: J.Env, ids: set<string>, st: P.State, act: P.Action, t: J.Tables, t': J.Tables) {
    if act.Work? && act.w in st.workers && st.workers[act.w].pc.Commit?
    then st.workers[act.w].pc.m.f.id in ids && exists r :: RecordOf(env, st.workers[act.w].pc, r, t, t')
    else t' == t
  }

  lemma OtherEffectsQuiet(c: P.Config, x: P.Stores, pc: P.PC, ch: P.Choice)
    requires !pc.Commit? && P.Effect(c, x, pc, ch).Go?
    ensures P.Effect(c, x, pc, ch).x.p.rows == x.p.rows
  {}

  lemma OtherActionsQuiet(c: P.Config, st: P.State, act: P.Action)
    requires P.Enabled(c, st, act) && !(act.Work? && st.workers[act.w].pc.Commit?)
    ensures P.Apply(c, st, act).x.p.rows == st.x.p.rows
  {
    if act.Work? && P.Effect(c, st.x, st.workers[act.w].pc, act.ch).Go? {
      OtherEffectsQuiet(c, st.x, st.workers[act.w].pc, act.ch);
    }
  }

  /** A run of the protocol with the journal tables beside it, from empty tables. */
  ghost predicate Beside(env: J.Env, ids: set<string>, c: P.Config, states: seq<P.State>, acts: seq<P.Action>,
                         tables: seq<J.Tables>) {
    && P.IsRun(c, states, acts) && |tables| == |states| && tables[0] == J.Tables(map[], map[])
    && forall i :: 0 <= i < |acts| ==> TablesFollow(env, ids, states[i], acts[i], tables[i], tables[i + 1])
  }

  lemma StepReads(env: J.Env, ids: set<string>, c: P.Config, states: seq<P.State>, acts: seq<P.Action>,
                  tables: seq<J.Tables>, i: nat)
    requires T.Supported(c) && c.checksum == env.hash && J.Distinct(env, ids)
    requires Beside(env, ids, c, states, acts, tables) && i < |acts| && Reads(env, ids, tables[i], states[i].x.p.rows)
    ensures Reads(env, ids, tables[i + 1], states[i + 1].x.p.rows)
  {
    var st, act := states[i], acts[i];
    assert P.Takes(c, st, act, states[i + 1]);
    assert TablesFollow(env, ids, st, act, tables[i], tables[i + 1]);
    if act.Work? && st.workers[act.w].pc.Commit? {
      var r :| RecordOf(env, st.workers[act.w].pc, r, tables[i], tables[i + 1]);
      RecordRefinesRun(env, ids, tables[i], r, c, states, acts, i, act.w, act.ch);
    } else {
      OtherActionsQuiet(c, st, act);
    }
  }

  /** Along every such run the two tables hold exactly the protocol's rows, in pairs and with the
      checksum of the stored body. */
  lemma {:induction false} TablesRead(env: J.Env, ids: set<string>, c: P.Config, states: seq<P.State>,
                                      acts: seq<P.Action>,
                                      tables: seq<J.Tables>, i: nat)
    requires T.Supported(c) && c.checksum == env.hash && J.Distinct(env, ids)
    requires Beside(env, ids, c, states, acts, tables) && i < |states|
    ensures Reads(env, ids, tables[i], states[i].x.p.rows)
  {
    if i > 0 {
      TablesRead(env, ids, c, states, acts, tables, i - 1);
      StepReads(env, ids, c, states, acts, tables, i - 1);
    }
  }
}
