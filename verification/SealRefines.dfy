/** The key stores, the receipt store and the ledger tables do what the protocol's steps do, so
    the protocol's results hold of the rows themselves. */
module SealRefines {
  import opened Basics
  import opened Hashing
  import S = Seal
  import L = Ledger
  import Timestamps
  import P = Protocol
  import I = ProtocolInvariant
  import T = ProtocolTheorems

  /** How the protocol's names appear in the tables: derived ids, key bytes, instants, tenant ids,
      ledger payloads, which job a stored payload names, and the job ids and tenants in play. */
  datatype Names = Names(
    durable: string -> S.JobId,
    material: P.Key -> S.Material,
    time: P.Time -> S.Time,
    tenantOf: string -> Option<L.Tenant>,
    payload: S.Receipt -> Bytes,
    jobOf: Bytes -> Option<string>,
    ids: set<string>,
    tenants: set<string>)

  /** Distinct jobs and tenants in play have distinct ids, and a stored payload names its job. */
  ghost predicate Good(env: L.Env, n: Names) {
    && (forall a, b :: a in n.ids && b in n.ids && n.durable(a) == n.durable(b) ==> a == b)
    && (forall t :: t in n.tenants ==> n.tenantOf(t).Some?)
    && (forall t, u :: t in n.tenants && u in n.tenants && n.tenantOf(t) == n.tenantOf(u) ==> t == u)
    && (forall r :: n.jobOf(env.jsonb(env.canon(n.payload(r)))) == Some(r.redisJob))
  }

  // ----- keys

  function RowOf(n: Names, row: P.KeyRow): S.KeyRow {
    match row
    case Live(key) => S.Live(n.material(key))
    case Destroyed(at) => S.Destroyed(n.time(at))
  }

  function RowsOf(n: Names, row: Option<P.KeyRow>): Option<S.KeyRow> {
    if row.None? then None else Some(RowOf(n, row.value))
  }

  ghost predicate KeysRead(n: Names, k: S.Keys, keys: map<P.JobId, P.KeyRow>) {
    forall j :: j in n.ids ==> Get(k, n.durable(j)) == RowsOf(n, Get(keys, j))
  }

  /** What asking for a key answers. */
  function AnswerOf(n: Names, row: Option<P.KeyRow>): S.KeyAnswer {
    match row
    case None => S.Missing
    case Some(Live(key)) => S.Key(n.material(key))
    case Some(Destroyed(_)) => S.KeyDestroyed
  }

  lemma KeysUpdated(env: L.Env, n: Names, k: S.Keys, keys: map<P.JobId, P.KeyRow>,
                    j: P.JobId, row: P.KeyRow)
    requires Good(env, n) && KeysRead(n, k, keys) && j in n.ids
    ensures KeysRead(n, k[n.durable(j) := RowOf(n, row)], keys[j := row])
  {
    var k' := k[n.durable(j) := RowOf(n, row)];
    forall i | i in n.ids ensures Get(k', n.durable(i)) == RowsOf(n, Get(keys[j := row], i)) {
      assert Get(k, n.durable(i)) == RowsOf(n, Get(keys, i));
    }
  }

  /** Each key-store call is the protocol's key step, and answers with the row that step leaves. */
  lemma KeyCallsRefine(env: L.Env, n: Names, k: S.Keys, keys: map<P.JobId, P.KeyRow>,
                       j: P.JobId, material: P.Key, at: P.Time)
    requires Good(env, n) && KeysRead(n, k, keys) && j in n.ids
    ensures var (k', a) := S.KeyStep(k, S.Ensure(n.durable(j), n.material(material)));
            var keys' := P.EnsureInsert(keys, j, material);
            KeysRead(n, k', keys') && a == AnswerOf(n, Get(keys', j))
    ensures S.KeyStep(k, S.Load(n.durable(j))) == (k, AnswerOf(n, Get(keys, j)))
    ensures KeysRead(n, S.KeyStep(k, S.Destroy(n.durable(j), n.time(at))).0, P.Destroy(keys, j, at))
  {
    assert Get(k, n.durable(j)) == RowsOf(n, Get(keys, j));
    KeysUpdated(env, n, k, keys, j, P.Live(material));
    KeysUpdated(env, n, k, keys, j, P.Destroyed(at));
  }

  /** The call a program counter makes, if it writes the key table. */
  function KeyCall(n: Names, pc: P.PC, ch: P.Choice): Option<S.Call> {
    match pc
    case MemInsert(m, _, _) => Some(S.Ensure(n.durable(m.f.id), n.material(ch.material)))
    case SaveInsert(m, _, _) => Some(S.Ensure(n.durable(m.f.id), n.material(ch.material)))
    case PurgeDestroy(m, at, _) => Some(S.Destroy(n.durable(m.f.id), n.time(at)))
    case _ => None
  }

  function KeysAfter(n: Names, k: S.Keys, pc: P.PC, ch: P.Choice): S.Keys {
    match KeyCall(n, pc, ch)
    case None => k
    case Some(call) => S.KeyStep(k, call).0
  }

  lemma KeysOfEffect(c: P.Config, x: P.Stores, pc: P.PC, ch: P.Choice)
    requires P.Effect(c, x, pc, ch).Go?
    ensures P.Effect(c, x, pc, ch).x.p.keys ==
            (match pc
             case MemInsert(m, _, _) => P.EnsureInsert(x.p.keys, m.f.id, ch.material)
             case SaveInsert(m, _, _) => P.EnsureInsert(x.p.keys, m.f.id, ch.material)
             case PurgeDestroy(m, at, _) => P.Destroy(x.p.keys, m.f.id, at)
             case _ => x.p.keys)
  {}

  /** Every effect of a worker on the key table is the key-store call it makes. */
  lemma KeyEffectsRefine(env: L.Env, n: Names, k: S.Keys,
                         c: P.Config, x: P.Stores, pc: P.PC, ch: P.Choice)
    requires Good(env, n) && KeysRead(n, k, x.p.keys) && !pc.Idle? && pc.m.f.id in n.ids
    requires P.Effect(c, x, pc, ch).Go?
    ensures KeysRead(n, KeysAfter(n, k, pc, ch), P.Effect(c, x, pc, ch).x.p.keys)
  {
    KeysOfEffect(c, x, pc, ch);
    KeyCallsRefine(env, n, k, x.p.keys, pc.m.f.id, ch.material, if pc.PurgeDestroy? then pc.at else 0);
  }

  /** Opening a checkpoint, sealing one and opening the input, under a key the store answered. */
  function UnderKey(x: P.Stores, pc: P.PC, key: P.Key): P.Outcome
    requires pc.MemSelect? || pc.SaveSelect? || pc.LoadKey?
  {
    match pc
    case MemSelect(m, fail, sealed) =>
      var partial := P.Open(key, sealed);
      if partial.None? then P.Dead else P.Go(x, P.LoadKey(m, fail, partial))
    case SaveSelect(m, fail, partial) => P.Go(x, P.SaveSet(m, fail, partial, P.Sealed(key, partial)))
    case LoadKey(m, fail, saved) =>
      match P.Open(key, m.f.input)
      case None => P.Go(x, P.Commit(m, P.FailRow(m, "input is not sealed"), P.Bury))
      case Some(plain) => P.Go(x, P.Running(m, fail, saved, plain))
  }

  /** Every step that reads the key table branches on the store's answer, and with a key uses
      exactly that one. */
  lemma KeyReadsRefine(env: L.Env, n: Names, k: S.Keys, c: P.Config, x: P.Stores, pc: P.PC, ch: P.Choice)
    requires Good(env, n) && KeysRead(n, k, x.p.keys) && !pc.Idle? && pc.m.f.id in n.ids
    requires pc.MemSelect? || pc.SaveSelect? || (pc.LoadKey? && TypeName(pc.m.f.jobType) in c.runners)
    ensures var a, o := S.KeyStep(k, S.Load(n.durable(pc.m.f.id))).1, P.Effect(c, x, pc, ch);
            && (a.KeyDestroyed? ==> o.Dead?)
            && (a.Missing? && pc.LoadKey? ==>
                  o == P.Go(x, P.Commit(pc.m, P.FailRow(pc.m, "input key missing"), P.Bury)))
            && (a.Missing? && !pc.LoadKey? ==> o.Dead?)
            && (a.Key? ==> exists key :: n.material(key) == a.material && o == UnderKey(x, pc, key))
            && !a.Unavailable? && !a.Done?
  {
    KeyCallsRefine(env, n, k, x.p.keys, pc.m.f.id, ch.material, 0);
    var j := pc.m.f.id;
    if j in x.p.keys && x.p.keys[j].Live? {
      assert P.Effect(c, x, pc, ch) == UnderKey(x, pc, x.p.keys[j].key);
    }
  }

  // ----- receipts and the ledger

  const PURGE: Bytes := L.Ascii("purge_receipt")

  ghost predicate ReceiptsRead(n: Names, rows: map<S.JobId, S.Receipt>, receipts: map<P.JobId, P.Time>) {
    forall j :: j in n.ids ==>
      && (n.durable(j) in rows <==> j in receipts)
      && (j in receipts ==> rows[n.durable(j)].purgedAt == n.time(receipts[j]))
  }

  /** A ledger row against a record: exactly purge records have the purge kind, and such a row
      names the record's job at its time. */
  ghost predicate RowReads(n: Names, row: L.Row, rec: P.Record) {
    && (rec.PurgeReceipt? <==> row.kind == PURGE)
    && (rec.PurgeReceipt? ==> n.jobOf(row.payload) == Some(rec.job) && row.at == Timestamps.Normalize(n.time(rec.at)))
  }

  ghost predicate ChainReads(n: Names, rows: seq<L.Row>, recs: seq<P.Record>) {
    |rows| == |recs| && forall i :: 0 <= i < |rows| ==> RowReads(n, rows[i], recs[i])
  }

  ghost function RowsAt(n: Names, s: S.Store, t: P.Tenant): seq<L.Row>
    requires n.tenantOf(t).Some?
  {
    S.TableOf(s, n.tenantOf(t).value).rows
  }

  ghost predicate BooksRead(n: Names, s: S.Store, pg: P.Postgres) {
    forall t :: t in n.tenants ==> n.tenantOf(t).Some? && ChainReads(n, RowsAt(n, s, t), P.LedgerOf(pg, t))
  }

  ghost predicate Reads(n: Names, s: S.Store, pg: P.Postgres) {
    ReceiptsRead(n, s.rows, pg.receipts) && BooksRead(n, s, pg)
  }

  lemma ChainSnoc(n: Names, rows: seq<L.Row>, recs: seq<P.Record>, row: L.Row, rec: P.Record)
    requires ChainReads(n, rows, recs) && RowReads(n, row, rec)
    ensures ChainReads(n, rows + [row], recs + [rec])
  {}

  /** One more row in a tenant's table and one more record in its chain. */
  lemma BooksGrow(env: L.Env, n: Names, s: S.Store, s': S.Store,
                  pg: P.Postgres, pg': P.Postgres, t: P.Tenant, row: L.Row, rec: P.Record)
    requires Good(env, n) && BooksRead(n, s, pg) && t in n.tenants && RowReads(n, row, rec)
    requires RowsAt(n, s', t) == RowsAt(n, s, t) + [row] && pg'.ledger == P.Append(pg, t, rec)
    requires forall u :: u != n.tenantOf(t).value ==> S.TableOf(s', u) == S.TableOf(s, u)
    ensures BooksRead(n, s', pg')
  {
    forall u | u in n.tenants ensures ChainReads(n, RowsAt(n, s', u), P.LedgerOf(pg', u)) {
      assert ChainReads(n, RowsAt(n, s, u), P.LedgerOf(pg, u));
      if u == t {
        ChainSnoc(n, RowsAt(n, s, t), P.LedgerOf(pg, t), row, rec);
      } else {
        assert n.tenantOf(u) != n.tenantOf(t);
        assert S.TableOf(s', n.tenantOf(u).value) == S.TableOf(s, n.tenantOf(u).value);
      }
    }
  }

  lemma BooksStay(n: Names, s: S.Store, s': S.Store, pg: P.Postgres)
    requires BooksRead(n, s, pg) && S.SameBooks(s, s')
    ensures BooksRead(n, s', pg)
  {
    forall t | t in n.tenants ensures ChainReads(n, RowsAt(n, s', t), P.LedgerOf(pg, t)) {
      assert S.TableOf(s', n.tenantOf(t).value) == S.TableOf(s, n.tenantOf(t).value);
      assert ChainReads(n, RowsAt(n, s, t), P.LedgerOf(pg, t));
    }
  }

  lemma ReceiptAdded(env: L.Env, n: Names, rows: map<S.JobId, S.Receipt>,
                     receipts: map<P.JobId, P.Time>, j: P.JobId, at: P.Time, r: S.Receipt)
    requires Good(env, n) && ReceiptsRead(n, rows, receipts) && j in n.ids
    requires r.job == n.durable(j) && r.purgedAt == n.time(at)
    ensures ReceiptsRead(n, rows[r.job := S.Columns(r)], receipts[j := at])
  {}

  /** The receipt that the purge of a claimed job asks to insert. */
  ghost predicate ReceiptFor(n: Names, m: P.Msg, at: P.Time, r: S.Receipt) {
    r.job == n.durable(m.f.id) && r.redisJob == m.f.id && r.purgedAt == n.time(at) && r.tenant == m.f.tenant
  }

  /** The ledger row of a receipt. */
  lemma BookedRow(env: L.Env, n: Names, m: P.Msg, at: P.Time, r: S.Receipt, t: L.Table)
    requires Good(env, n) && ReceiptFor(n, m, at, r)
    ensures var t' := L.Append(env, t, PURGE, n.payload(r), r.purgedAt);
            && |t'.rows| == |t.rows| + 1 && t'.rows == t.rows + [t'.rows[|t.rows|]]
            && RowReads(n, t'.rows[|t.rows|], P.PurgeReceipt(m.f.id, at))
  {}

  lemma InsertStored(env: L.Env, n: Names, s: S.Store, s': S.Store, r: S.Receipt,
                     x: P.Stores, m: P.Msg, at: P.Time)
    requires Good(env, n) && Reads(n, s, x.p) && ReceiptFor(n, m, at, r)
    requires m.f.id in n.ids && m.f.tenant in n.tenants && m.f.tenant != ""
    requires S.Insertion(env, n.tenantOf, n.payload, s, r, s', S.Stored)
    ensures Reads(n, s', P.WithReceipt(x, m.f.tenant, m.f.id, at).p)
  {
    var t := n.tenantOf(m.f.tenant).value;
    BookedRow(env, n, m, at, r, S.TableOf(s, t));
    BooksGrow(env, n, s, s', x.p, P.WithReceipt(x, m.f.tenant, m.f.id, at).p, m.f.tenant,
              S.TableOf(s', t).rows[|S.TableOf(s, t).rows|], P.PurgeReceipt(m.f.id, at));
    ReceiptAdded(env, n, s.rows, x.p.receipts, m.f.id, at, r);
  }

  /** An insert that does not fail is the protocol's step: it stores exactly where the step adds
      the receipt and its record, and finds one present exactly where the step does. */
  lemma InsertRefines(env: L.Env, n: Names, s: S.Store, s': S.Store, r: S.Receipt,
                      a: S.Inserted, c: P.Config, x: P.Stores, pc: P.PC, ch: P.Choice)
    requires Good(env, n) && Reads(n, s, x.p)
    requires pc.PurgeInsert? && pc.m.f.id in n.ids && pc.m.f.tenant in n.tenants && pc.m.f.tenant != ""
    requires ReceiptFor(n, pc.m, pc.at, r) && S.Insertion(env, n.tenantOf, n.payload, s, r, s', a) && !a.Failed?
    ensures var o := P.Effect(c, x, pc, ch);
            && o.Go? && Reads(n, s', o.x.p)
            && (a.Stored? <==> o.pc.PurgeDestroy?) && (a.Present? <==> o.pc.PurgeGetAgain?)
  {
    assert n.durable(pc.m.f.id) in s.rows <==> pc.m.f.id in x.p.receipts;
    if a.Stored? {
      InsertStored(env, n, s, s', r, x, pc.m, pc.at);
    } else {
      BooksStay(n, s, s', x.p);
    }
  }

  /** Looking a receipt up is the protocol's read: it finds one exactly where the step goes on to
      destroy the key, and at that receipt's time. */
  lemma LookupRefines(n: Names, s: S.Store, c: P.Config, x: P.Stores, pc: P.PC, ch: P.Choice)
    requires Reads(n, s, x.p) && (pc.PurgeGet? || pc.PurgeGetAgain?) && pc.m.f.id in n.ids
    ensures var found, o := Get(s.rows, n.durable(pc.m.f.id)), P.Effect(c, x, pc, ch);
            && (found.Some? <==> o.Go? && o.pc.PurgeDestroy?)
            && (found.Some? ==> n.time(o.pc.at) == found.value.purgedAt)
            && (found.None? ==> if pc.PurgeGet? then o.Go? && o.pc.PurgeInsert? else o.Dead?)
  {
    assert n.durable(pc.m.f.id) in s.rows <==> pc.m.f.id in x.p.receipts;
  }

  /** An append of any other kind is the protocol's append of another record. */
  lemma OtherAppendRefines(env: L.Env, n: Names, s: S.Store, s': S.Store,
                           pg: P.Postgres, t: P.Tenant, kind: Bytes, payload: Bytes, at: S.Time, name: string)
    requires Good(env, n) && Reads(n, s, pg) && t in n.tenants && kind != PURGE && s'.rows == s.rows
    requires var u := n.tenantOf(t).value;
             && S.TableOf(s', u) == L.Append(env, S.TableOf(s, u), kind, payload, at)
             && forall v :: v != u ==> S.TableOf(s', v) == S.TableOf(s, v)
    ensures Reads(n, s', pg.(ledger := P.Append(pg, t, P.Other(name))))
  {
    var before, after := RowsAt(n, s, t), RowsAt(n, s', t);
    BooksGrow(env, n, s, s', pg, pg.(ledger := P.Append(pg, t, P.Other(name))), t, after[|before|], P.Other(name));
  }

  /** No other effect touches receipts or ledger. */
  lemma OtherEffectsQuiet(c: P.Config, x: P.Stores, pc: P.PC, ch: P.Choice)
    requires !pc.PurgeInsert? && P.Effect(c, x, pc, ch).Go?
    ensures var p := P.Effect(c, x, pc, ch).x.p; p.receipts == x.p.receipts && p.ledger == x.p.ledger
  {}

  // ----- one ledger row per purge

  /** How many purge rows of a chain name the job. */
  ghost function CountRows(n: Names, rows: seq<L.Row>, j: P.JobId): nat {
    if rows == [] then 0
    else
      var last := rows[|rows| - 1];
      CountRows(n, rows[..|rows| - 1], j) + if last.kind == PURGE && n.jobOf(last.payload) == Some(j) then 1 else 0
  }

  lemma {:induction false} CountsAgree(n: Names, rows: seq<L.Row>, recs: seq<P.Record>, j: P.JobId)
    requires ChainReads(n, rows, recs)
    ensures CountRows(n, rows, j) == I.CountPurges(recs, j)
  {
    if rows != [] {
      var last := |rows| - 1;
      assert RowReads(n, rows[last], recs[last]);
      CountsAgree(n, rows[..last], recs[..last], j);
    }
  }

  // ----- runs with the tables beside them

  /** What the tables do while the protocol takes an action: a worker's insert runs the receipt
      store's transaction, other appends write another kind, and nothing else writes them. A
      transaction that fails is a crash, so the tables stay. */
  ghost predicate TablesFollow(env: L.Env, n: Names, st: P.State,
                               act: P.Action, s: S.Store, s': S.Store) {
    match act
    case Work(w, ch) =>
      if w in st.workers && st.workers[w].pc.PurgeInsert? then InsertFollows(env, n, st.workers[w].pc, s, s')
      else s' == s
    case SetPolicy(t, _) => t in n.tenants && OtherAppend(env, n, t, s, s')
    case AppendOther(t, _) => t in n.tenants && OtherAppend(env, n, t, s, s')
    case _ => s' == s
  }

  ghost predicate InsertFollows(env: L.Env, n: Names, pc: P.PC, s: S.Store, s': S.Store)
    requires pc.PurgeInsert?
  {
    && pc.m.f.id in n.ids && pc.m.f.tenant in n.tenants
    && exists r, a :: InsertOf(env, n, pc, r, a, s, s')
  }

  ghost predicate InsertOf(env: L.Env, n: Names, pc: P.PC, r: S.Receipt, a: S.Inserted, s: S.Store, s': S.Store)
    requires pc.PurgeInsert?
  {
    ReceiptFor(n, pc.m, pc.at, r) && S.Insertion(env, n.tenantOf, n.payload, s, r, s', a) && !a.Failed?
  }

  ghost predicate OtherAppend(env: L.Env, n: Names, t: P.Tenant, s: S.Store, s': S.Store) {
    exists kind, payload, at :: AppendOf(env, n, t, kind, payload, at, s, s')
  }

  ghost predicate AppendOf(env: L.Env, n: Names, t: P.Tenant, kind: Bytes, payload: Bytes, at: S.Time, s: S.Store,
                           s': S.Store) {
    && kind != PURGE && s'.rows == s.rows && n.tenantOf(t).Some?
    && var u := n.tenantOf(t).value;
       && S.TableOf(s', u) == L.Append(env, S.TableOf(s, u), kind, payload, at)
       && forall v :: v != u ==> S.TableOf(s', v) == S.TableOf(s, v)
  }

  lemma ReadsSame(n: Names, s: S.Store, pg: P.Postgres, pg': P.Postgres)
    requires Reads(n, s, pg) && pg'.receipts == pg.receipts && pg'.ledger == pg.ledger
    ensures Reads(n, s, pg')
  {
    forall t | t in n.tenants ensures ChainReads(n, RowsAt(n, s, t), P.LedgerOf(pg', t)) {
      assert ChainReads(n, RowsAt(n, s, t), P.LedgerOf(pg, t));
    }
  }

  lemma WorkReads(env: L.Env, n: Names, c: P.Config, st: P.State,
                  w: P.WorkerId, ch: P.Choice, s: S.Store, s': S.Store)
    requires Good(env, n) && T.Inv(c, st) && w in st.workers && Reads(n, s, st.x.p)
    requires TablesFollow(env, n, st, P.Work(w, ch), s, s')
    ensures Reads(n, s', P.After(st, w, P.Effect(c, st.x, st.workers[w].pc, ch)).x.p)
  {
    var pc := st.workers[w].pc;
    if pc.PurgeInsert? {
      var r, a :| InsertOf(env, n, pc, r, a, s, s');
      assert I.WorkerOK(c, st.x, st.workers[w]);
      InsertRefines(env, n, s, s', r, a, c, st.x, pc, ch);
    } else if P.Effect(c, st.x, pc, ch).Go? {
      OtherEffectsQuiet(c, st.x, pc, ch);
      ReadsSame(n, s, st.x.p, P.Effect(c, st.x, pc, ch).x.p);
    }
  }

  lemma AppendReads(env: L.Env, n: Names, pg: P.Postgres, pg': P.Postgres,
                    t: P.Tenant, name: string, s: S.Store, s': S.Store)
    requires Good(env, n) && Reads(n, s, pg) && t in n.tenants && OtherAppend(env, n, t, s, s')
    requires pg'.receipts == pg.receipts && pg'.ledger == P.Append(pg, t, P.Other(name))
    ensures Reads(n, s', pg')
  {
    var kind, payload, at :| AppendOf(env, n, t, kind, payload, at, s, s');
    OtherAppendRefines(env, n, s, s', pg, t, kind, payload, at, name);
    ReadsSame(n, s', pg.(ledger := P.Append(pg, t, P.Other(name))), pg');
  }

  lemma ActionReads(env: L.Env, n: Names, c: P.Config, st: P.State,
                    act: P.Action, s: S.Store, s': S.Store)
    requires Good(env, n) && T.Inv(c, st) && P.Enabled(c, st, act) && Reads(n, s, st.x.p)
    requires TablesFollow(env, n, st, act, s, s')
    ensures Reads(n, s', P.Apply(c, st, act).x.p)
  {
    var pg' := P.Apply(c, st, act).x.p;
    match act
    case Work(w, ch) => WorkReads(env, n, c, st, w, ch, s, s');
    case SetPolicy(t, _) => AppendReads(env, n, st.x.p, pg', t, "policy_changed", s, s');
    case AppendOther(t, kind) => AppendReads(env, n, st.x.p, pg', t, kind, s, s');
    case _ => ReadsSame(n, s, st.x.p, pg');
  }

  /** A run of the protocol with the tables beside it, from empty tables. */
  ghost predicate Beside(env: L.Env, n: Names, c: P.Config,
                         states: seq<P.State>, acts: seq<P.Action>, tables: seq<S.Store>) {
    && P.IsRun(c, states, acts) && |tables| == |states| && tables[0] == S.Store(map[], map[], map[])
    && forall i :: 0 <= i < |acts| ==> TablesFollow(env, n, states[i], acts[i], tables[i], tables[i + 1])
  }

  lemma StepReads(env: L.Env, n: Names, c: P.Config, states: seq<P.State>, acts: seq<P.Action>,
                  tables: seq<S.Store>, i: nat)
    requires Good(env, n) && T.Supported(c) && Beside(env, n, c, states, acts, tables)
    requires i < |acts| && Reads(n, tables[i], states[i].x.p)
    ensures Reads(n, tables[i + 1], states[i + 1].x.p)
  {
    T.RunInv(c, states, acts, i);
    assert P.Takes(c, states[i], acts[i], states[i + 1]);
    assert TablesFollow(env, n, states[i], acts[i], tables[i], tables[i + 1]);
    ActionReads(env, n, c, states[i], acts[i], tables[i], tables[i + 1]);
  }

  /** Along every such run the tables hold what the protocol's state says. */
  lemma {:induction false} TablesRead(env: L.Env, n: Names, c: P.Config, states: seq<P.State>, acts: seq<P.Action>,
                                      tables: seq<S.Store>, i: nat)
    requires Good(env, n) && T.Supported(c) && Beside(env, n, c, states, acts, tables)
    requires i < |states|
    ensures Reads(n, tables[i], states[i].x.p)
  {
    if i == 0 {
      EmptyReads(n, states[0].x.p, tables[0]);
    } else {
      TablesRead(env, n, c, states, acts, tables, i - 1);
      StepReads(env, n, c, states, acts, tables, i - 1);
    }
  }

  lemma EmptyReads(n: Names, pg: P.Postgres, s: S.Store)
    requires s == S.Store(map[], map[], map[]) && pg.receipts == map[] && pg.ledger == map[]
    requires forall t :: t in n.tenants ==> n.tenantOf(t).Some?
    ensures Reads(n, s, pg)
  {}

  /** Along every run the tables hold exactly one purge row that names a job with a receipt row,
      in its own tenant's chain, and none that names a job without one or in another chain. */
  lemma OneLedgerRow(env: L.Env, n: Names, c: P.Config, states: seq<P.State>,
                     acts: seq<P.Action>, tables: seq<S.Store>, i: nat, j: P.JobId, t: P.Tenant)
    requires Good(env, n) && T.Supported(c) && Beside(env, n, c, states, acts, tables)
    requires i < |states| && j in states[i].x.h.accepted && j in n.ids && t in n.tenants
    ensures CountRows(n, RowsAt(n, tables[i], t), j) ==
            if n.durable(j) in tables[i].rows && t == states[i].x.h.accepted[j].tenant then 1 else 0
  {
    TablesRead(env, n, c, states, acts, tables, i);
    T.OneLedgerRecord(c, states, acts, i, j, t);
    CountsAgree(n, RowsAt(n, tables[i], t), P.LedgerOf(states[i].x.p, t), j);
  }

  // ----- the key table beside the run

  /** What the key table does while the protocol takes an action. */
  ghost predicate KeysFollow(n: Names, st: P.State, act: P.Action, k: S.Keys, k': S.Keys) {
    match act
    case AddKey(j, material) => j in n.ids && k' == S.KeyStep(k, S.Ensure(n.durable(j), n.material(material))).0
    case Work(w, ch) =>
      w in st.workers && var pc := st.workers[w].pc;
      (!pc.Idle? ==> pc.m.f.id in n.ids) && k' == KeysAfter(n, k, pc, ch)
    case _ => k' == k
  }

  lemma KeysOfDead(c: P.Config, x: P.Stores, n: Names, pc: P.PC, ch: P.Choice)
    requires pc.Idle? || P.Effect(c, x, pc, ch).Dead?
    ensures KeyCall(n, pc, ch) == None
  {}

  lemma WorkKeysRead(env: L.Env, n: Names, c: P.Config, st: P.State, w: P.WorkerId, ch: P.Choice, k: S.Keys, k': S.Keys)
    requires Good(env, n) && w in st.workers && KeysRead(n, k, st.x.p.keys) && KeysFollow(n, st, P.Work(w, ch), k, k')
    ensures KeysRead(n, k', P.After(st, w, P.Effect(c, st.x, st.workers[w].pc, ch)).x.p.keys)
  {
    var pc := st.workers[w].pc;
    if pc.Idle? || P.Effect(c, st.x, pc, ch).Dead? {
      KeysOfDead(c, st.x, n, pc, ch);
    } else {
      KeyEffectsRefine(env, n, k, c, st.x, pc, ch);
    }
  }

  lemma ActionKeysRead(env: L.Env, n: Names, c: P.Config, st: P.State, act: P.Action, k: S.Keys, k': S.Keys)
    requires Good(env, n) && P.Enabled(c, st, act) && KeysRead(n, k, st.x.p.keys) && KeysFollow(n, st, act, k, k')
    ensures KeysRead(n, k', P.Apply(c, st, act).x.p.keys)
  {
    if act.Work? {
      WorkKeysRead(env, n, c, st, act.w, act.ch, k, k');
    } else if act.AddKey? {
      KeyCallsRefine(env, n, k, st.x.p.keys, act.j, act.material, 0);
    }
  }

  /** A run of the protocol with the key table beside it, from an empty table. */
  ghost predicate KeysBeside(n: Names, c: P.Config, states: seq<P.State>, acts: seq<P.Action>, keys: seq<S.Keys>) {
    && P.IsRun(c, states, acts) && |keys| == |states| && keys[0] == map[]
    && forall i :: 0 <= i < |acts| ==> KeysFollow(n, states[i], acts[i], keys[i], keys[i + 1])
  }

  /** Along every such run the key table holds what the protocol's state says. */
  lemma {:induction false} KeyTableReads(env: L.Env, n: Names, c: P.Config, states: seq<P.State>, acts: seq<P.Action>,
                                         keys: seq<S.Keys>, i: nat)
    requires Good(env, n) && KeysBeside(n, c, states, acts, keys) && i < |states|
    ensures KeysRead(n, keys[i], states[i].x.p.keys)
  {
    if i > 0 {
      KeyTableReads(env, n, c, states, acts, keys, i - 1);
      KeyTableStep(env, n, c, states, acts, keys, i - 1);
    }
  }

  lemma KeyTableStep(env: L.Env, n: Names, c: P.Config, states: seq<P.State>, acts: seq<P.Action>,
                     keys: seq<S.Keys>, i: nat)
    requires Good(env, n) && KeysBeside(n, c, states, acts, keys) && i < |acts|
    requires KeysRead(n, keys[i], states[i].x.p.keys)
    ensures KeysRead(n, keys[i + 1], states[i + 1].x.p.keys)
  {
    assert P.Takes(c, states[i], acts[i], states[i + 1]);
    assert KeysFollow(n, states[i], acts[i], keys[i], keys[i + 1]);
    ActionKeysRead(env, n, c, states[i], acts[i], keys[i], keys[i + 1]);
  }

  /** Purge safety of the rows themselves: along every run with both tables beside it, an
      acknowledged job has a receipt row, and its key row is destroyed at that receipt's time. */
  lemma PurgedRows(env: L.Env, n: Names, c: P.Config, states: seq<P.State>, acts: seq<P.Action>,
                   tables: seq<S.Store>, keys: seq<S.Keys>, i: nat, j: P.JobId)
    requires Good(env, n) && T.Supported(c) && Beside(env, n, c, states, acts, tables)
    requires KeysBeside(n, c, states, acts, keys) && i < |states|
    requires j in states[i].x.h.accepted && j in n.ids && T.Acked(states[i].x, j)
    ensures n.durable(j) in tables[i].rows
    ensures Get(keys[i], n.durable(j)) == Some(S.Destroyed(tables[i].rows[n.durable(j)].purgedAt))
  {
    TablesRead(env, n, c, states, acts, tables, i);
    KeyTableReads(env, n, c, states, acts, keys, i);
    T.PurgeSafety(c, states, acts, i, j);
    assert Get(keys[i], n.durable(j)) == RowsOf(n, Get(states[i].x.p.keys, j));
  }
}
