/** The per-tenant audit ledger: append and verify of a hash chain, and what an accepted head
    pins down. */
module Ledger {
  import opened Basics
  import opened Hashing
  import opened Timestamps

  type Tenant = string

  /** The opaque parts: the hash, JSON canonicalisation and what the JSONB column gives back. */
  datatype Env = Env(hash: Hash, canon: Bytes -> Bytes, jsonb: Bytes -> Bytes)

  /** Storing a canonical payload and reading it back loses nothing canonicalisation keeps. */
  ghost predicate Faithful(env: Env) {
    forall p {:trigger env.jsonb(env.canon(p))} :: env.canon(env.jsonb(env.canon(p))) == env.canon(p)
  }

  datatype Row = Row(seqNo: int, prev: Bytes, entry: Bytes, kind: Bytes, payload: Bytes, at: Time)
  datatype Head = Head(seqNo: int, hash: Bytes)

  /** One tenant's rows in order of their sequence number, and its head row. */
  datatype Table = Table(rows: seq<Row>, head: Option<Head>)

  const EMPTY: Table := Table([], None)

  function Ascii(s: string): (b: Bytes)
    ensures |b| == |s| && forall i :: 0 <= i < |s| ==> b[i] as int == s[i] as int % 256
  {
    seq(|s|, i requires 0 <= i < |s| => (s[i] as int % 256) as Byte)
  }

  function EntryInput(prev: Bytes, kind: Bytes, payload: Bytes, at: Time): Bytes {
    prev + kind + payload + Format(at)
  }

  /** Both append routines: ensure the head row, read it, insert the entry, move the head. */
  function Append(env: Env, t: Table, kind: Bytes, payload: Bytes, at: Time): Table {
    var head := if t.head.Some? then t.head.value else Head(0, Zeros());
    var prev := if head.seqNo == 0 then Zeros() else head.hash;
    var sum := env.hash(EntryInput(prev, kind, env.canon(payload), Normalize(at)));
    Table(t.rows + [Row(head.seqNo + 1, prev, sum, kind, env.jsonb(env.canon(payload)), Normalize(at))],
          Some(Head(head.seqNo + 1, sum)))
  }

  /** One tenant's part of the two tables. */
  function TableAt(heads: map<Tenant, Head>, entries: map<Tenant, seq<Row>>, t: Tenant): Table {
    Table(if t in entries then entries[t] else [], Get(heads, t))
  }

  /** The two tables inside one SQL transaction, written statement by statement. */
  class Tables {
    var heads: map<Tenant, Head>
    var entries: map<Tenant, seq<Row>>

    constructor (heads: map<Tenant, Head>, entries: map<Tenant, seq<Row>>)
      ensures this.heads == heads && this.entries == entries
    {
      this.heads, this.entries := heads, entries;
    }

    ghost function View(t: Tenant): Table
      reads this
    {
      TableAt(heads, entries, t)
    }

    method AppendSQL(env: Env, tenant: Tenant, kind: Bytes, payload: Bytes, at: Time)
      modifies this
      ensures View(tenant) == Append(env, old(View(tenant)), kind, payload, at)
      ensures forall t :: t != tenant ==> View(t) == old(View(t))
    {
      var when, body := Normalize(at), env.canon(payload);
      if tenant !in heads { heads := heads[tenant := Head(0, Zeros())]; }
      var seqNo, prev := heads[tenant].seqNo, heads[tenant].hash;
      if seqNo == 0 { prev := Zeros(); }
      var sum := env.hash(EntryInput(prev, kind, body, when));
      var next := seqNo + 1;
      var rows := if tenant in entries then entries[tenant] else [];
      entries := entries[tenant := rows + [Row(next, prev, sum, kind, env.jsonb(body), when)]];
      heads := heads[tenant := Head(next, sum)];
    }
  }

  // ----- verification

  function PrevOf(rows: seq<Row>, i: nat): Bytes
    requires i <= |rows|
  {
    if i == 0 then Zeros() else rows[i - 1].entry
  }

  /** The message hashed for row i. */
  function InputOf(env: Env, rows: seq<Row>, i: nat): Bytes
    requires i < |rows|
  {
    EntryInput(PrevOf(rows, i), rows[i].kind, env.canon(rows[i].payload), Normalize(rows[i].at))
  }

  ghost predicate LinkOK(env: Env, rows: seq<Row>, i: nat)
    requires i < |rows|
  {
    && rows[i].seqNo == i + 1
    && rows[i].prev == PrevOf(rows, i)
    && rows[i].entry == env.hash(InputOf(env, rows, i))
  }

  ghost predicate HeadOK(t: Table) {
    match t.head
    case None => t.rows == []
    case Some(head) => head.seqNo == |t.rows| && head.hash == (if t.rows == [] then [] else t.rows[|t.rows| - 1].entry)
  }

  ghost predicate ChainOK(env: Env, t: Table) {
    (forall i :: 0 <= i < |t.rows| ==> LinkOK(env, t.rows, i)) && HeadOK(t)
  }

  datatype Verdict = Good | WrongSeq(at: int) | WrongPrev(at: int) | WrongEntry(at: int) | NoHead | WrongHead

  method Verify(env: Env, t: Table) returns (v: Verdict)
    ensures v.Good? <==> ChainOK(env, t)
  {
    var prev: Bytes := Zeros();
    var want, last, n := 1, [], 0;
    for i := 0 to |t.rows|
      invariant want == i + 1 && n == i && prev == PrevOf(t.rows, i)
      invariant last == if i == 0 then [] else t.rows[i - 1].entry
      invariant forall k :: 0 <= k < i ==> LinkOK(env, t.rows, k)
    {
      var row := t.rows[i];
      if row.seqNo != want { assert !LinkOK(env, t.rows, i); return WrongSeq(row.seqNo); }
      if row.prev != prev { assert !LinkOK(env, t.rows, i); return WrongPrev(row.seqNo); }
      var sum := env.hash(EntryInput(prev, row.kind, env.canon(row.payload), Normalize(row.at)));
      if row.entry != sum { assert !LinkOK(env, t.rows, i); return WrongEntry(row.seqNo); }
      prev, last := row.entry, row.entry;
      want, n := want + 1, row.seqNo;
    }
    if t.head.None? { return if n == 0 then Good else NoHead; }
    if t.head.value.seqNo != n || t.head.value.hash != last { return WrongHead; }
    return Good;
  }

  /** A table as the append routines leave it: it verifies, and a head row comes with an entry. */
  ghost predicate WellFormed(env: Env, t: Table) {
    ChainOK(env, t) && (t.head.Some? ==> t.rows != [])
  }

  /** The row an append adds carries the kind, a payload with the given canonical form, and the
      time truncated to microseconds. */
  lemma AppendedRow(env: Env, t: Table, kind: Bytes, payload: Bytes, at: Time)
    requires Faithful(env)
    ensures var u := Append(env, t, kind, payload, at);
            && |u.rows| == |t.rows| + 1 && u.rows[..|t.rows|] == t.rows
            && var row := u.rows[|t.rows|];
               && row.kind == kind && env.canon(row.payload) == env.canon(payload)
               && row.at.(nanos := at.nanos) == at && row.at.nanos % 1000 == 0 && 0 <= at.nanos - row.at.nanos < 1000
               && u.head == Some(Head(row.seqNo, row.entry))
  {
    NormalizeTruncates(at);
    assert env.canon(env.jsonb(env.canon(payload))) == env.canon(payload);
  }

  lemma LinkExtends(env: Env, rows: seq<Row>, r: Row, i: nat)
    requires i < |rows| && LinkOK(env, rows, i)
    ensures LinkOK(env, rows + [r], i)
  {
    assert PrevOf(rows + [r], i) == PrevOf(rows, i) && (rows + [r])[i] == rows[i];
  }

  /** The row that an append to n good rows writes. */
  function NewRow(env: Env, rows: seq<Row>, kind: Bytes, payload: Bytes, at: Time): Row {
    var prev := PrevOf(rows, |rows|);
    Row(|rows| + 1, prev, env.hash(EntryInput(prev, kind, env.canon(payload), Normalize(at))), kind,
        env.jsonb(env.canon(payload)), Normalize(at))
  }

  lemma NewLink(env: Env, rows: seq<Row>, kind: Bytes, payload: Bytes, at: Time)
    requires Faithful(env)
    ensures LinkOK(env, rows + [NewRow(env, rows, kind, payload, at)], |rows|)
  {
    var r := NewRow(env, rows, kind, payload, at);
    assert PrevOf(rows + [r], |rows|) == PrevOf(rows, |rows|) && (rows + [r])[|rows|] == r;
    assert env.canon(env.jsonb(env.canon(payload))) == env.canon(payload);
    NormalizeIdempotent(at);
  }

  lemma AppendIsNewRow(env: Env, t: Table, kind: Bytes, payload: Bytes, at: Time)
    requires HeadOK(t) && (t.head.Some? ==> t.rows != [])
    ensures var r := NewRow(env, t.rows, kind, payload, at);
            Append(env, t, kind, payload, at) == Table(t.rows + [r], Some(Head(r.seqNo, r.entry)))
  {}

  lemma AppendKeeps(env: Env, t: Table, kind: Bytes, payload: Bytes, at: Time)
    requires Faithful(env) && WellFormed(env, t)
    ensures WellFormed(env, Append(env, t, kind, payload, at))
    ensures t.rows <= Append(env, t, kind, payload, at).rows
  {
    var rows, r := t.rows, NewRow(env, t.rows, kind, payload, at);
    AppendIsNewRow(env, t, kind, payload, at);
    forall i | 0 <= i < |rows| + 1 ensures LinkOK(env, rows + [r], i) {
      if i < |rows| { LinkExtends(env, rows, r, i); } else { NewLink(env, rows, kind, payload, at); }
    }
  }

  // ----- transactions

  type TxId = nat

  /** Committed tables, and per open transaction the tables it has appended to and so locked. */
  datatype Db = Db(committed: map<Tenant, Table>, working: map<TxId, map<Tenant, Table>>)

  datatype Action =
    | Begin(tx: TxId)
    | AppendIn(tx: TxId, tenant: Tenant, kind: Bytes, payload: Bytes, at: Time)
    | Commit(tx: TxId)
    | Rollback(tx: TxId)

  function TableOf(m: map<Tenant, Table>, t: Tenant): Table { if t in m then m[t] else EMPTY }

  /** The row lock on the head makes a second transaction on the tenant wait. */
  ghost predicate Enabled(db: Db, a: Action) {
    match a
    case Begin(tx) => tx !in db.working
    case AppendIn(tx, t, _, _, _) => tx in db.working && forall u :: u in db.working && u != tx ==> t !in db.working[u]
    case Commit(tx) => tx in db.working
    case Rollback(tx) => tx in db.working
  }

  function Apply(env: Env, db: Db, a: Action): Db
    requires Enabled(db, a)
  {
    match a
    case Begin(tx) => db.(working := db.working[tx := map[]])
    case AppendIn(tx, t, kind, payload, at) =>
      var mine := db.working[tx];
      var table := if t in mine then mine[t] else TableOf(db.committed, t);
      db.(working := db.working[tx := mine[t := Append(env, table, kind, payload, at)]])
    case Commit(tx) => Db(db.committed + db.working[tx], db.working - {tx})
    case Rollback(tx) => db.(working := db.working - {tx})
  }

  ghost predicate WorkOK(env: Env, db: Db, tx: TxId, t: Tenant)
    requires tx in db.working && t in db.working[tx]
  {
    && WellFormed(env, db.working[tx][t])
    && TableOf(db.committed, t).rows <= db.working[tx][t].rows
    && forall u :: u in db.working && u != tx ==> t !in db.working[u]
  }

  ghost predicate Inv(env: Env, db: Db) {
    && (forall t :: t in db.committed ==> WellFormed(env, db.committed[t]))
    && (forall tx, t :: tx in db.working && t in db.working[tx] ==> WorkOK(env, db, tx, t))
  }

  lemma StepKeeps(env: Env, db: Db, a: Action)
    requires Faithful(env) && Inv(env, db) && Enabled(db, a)
    ensures Inv(env, Apply(env, db, a))
  {
    var db' := Apply(env, db, a);
    if a.AppendIn? {
      var mine := db.working[a.tx];
      var table := if a.tenant in mine then mine[a.tenant] else TableOf(db.committed, a.tenant);
      assert a.tenant in mine ==> WorkOK(env, db, a.tx, a.tenant);
      AppendKeeps(env, table, a.kind, a.payload, a.at);
    }
    forall t | t in db'.committed ensures WellFormed(env, db'.committed[t]) {
      if a.Commit? && t in db.working[a.tx] { assert WorkOK(env, db, a.tx, t); }
    }
    forall tx, t | tx in db'.working && t in db'.working[tx] ensures WorkOK(env, db', tx, t) {
      if tx in db.working && t in db.working[tx] { assert WorkOK(env, db, tx, t); }
    }
  }

  ghost predicate IsRun(env: Env, dbs: seq<Db>, acts: seq<Action>) {
    && |dbs| == |acts| + 1 && dbs[0] == Db(map[], map[])
    && forall i :: 0 <= i < |acts| ==> Enabled(dbs[i], acts[i]) && dbs[i + 1] == Apply(env, dbs[i], acts[i])
  }

  lemma {:induction false} RunInv(env: Env, dbs: seq<Db>, acts: seq<Action>, i: nat)
    requires Faithful(env) && IsRun(env, dbs, acts) && i < |dbs|
    ensures Inv(env, dbs[i])
  {
    if i > 0 {
      RunInv(env, dbs, acts, i - 1);
      StepKeeps(env, dbs[i - 1], acts[i - 1]);
    }
  }

  /** After any interleaving of committed and rolled-back appends every tenant's chain
      verifies; a step extends the chains of the tenants its transaction appended to and
      leaves every other chain unchanged. */
  lemma AppendAndVerifyAgree(env: Env, dbs: seq<Db>, acts: seq<Action>, i: nat, t: Tenant)
    requires Faithful(env) && IsRun(env, dbs, acts) && i < |acts|
    ensures ChainOK(env, TableOf(dbs[i].committed, t)) && ChainOK(env, TableOf(dbs[i + 1].committed, t))
    ensures TableOf(dbs[i].committed, t).rows <= TableOf(dbs[i + 1].committed, t).rows
    ensures !(acts[i].Commit? && t in dbs[i].working[acts[i].tx]) ==>
              TableOf(dbs[i + 1].committed, t) == TableOf(dbs[i].committed, t)
  {
    RunInv(env, dbs, acts, i);
    RunInv(env, dbs, acts, i + 1);
    if acts[i].Commit? && t in dbs[i].working[acts[i].tx] { assert WorkOK(env, dbs[i], acts[i].tx, t); }
  }

  // ----- what a head binds

  ghost predicate NoOpenBrace(kind: Bytes) { forall i :: 0 <= i < |kind| ==> kind[i] != 123 }

  ghost predicate IsObject(payload: Bytes) { |payload| >= 2 && payload[0] == 123 && payload[|payload| - 1] == 125 }

  /** What the append routines hash: kinds without '{', JSON objects, four-digit years. */
  ghost predicate Hashable(env: Env, r: Row) {
    NoOpenBrace(r.kind) && IsObject(env.canon(r.payload)) && Valid(r.at)
  }

  lemma SplitAtFirstBrace(k: Bytes, rest: Bytes, k': Bytes, rest': Bytes)
    requires NoOpenBrace(k) && NoOpenBrace(k') && rest != [] && rest' != [] && rest[0] == 123 && rest'[0] == 123
    requires k + rest == k' + rest'
    ensures k == k' && rest == rest'
  {
    var s := k + rest;
    assert s[|k|] == 123 && (k' + rest')[|k'|] == 123;
    assert forall i :: 0 <= i < |k| ==> s[i] == k[i];
    assert forall i :: 0 <= i < |k'| ==> s[i] == k'[i];
    assert |k| == |k'|;
    assert k == s[..|k|] && k' == s[..|k'|] && rest == s[|k|..] && rest' == s[|k'|..];
  }

  lemma SplitAtLastBrace(p: Bytes, f: Bytes, p': Bytes, f': Bytes)
    requires IsObject(p) && IsObject(p') && p + f == p' + f'
    requires (forall i :: 0 <= i < |f| ==> f[i] != 125) && (forall i :: 0 <= i < |f'| ==> f'[i] != 125)
    ensures p == p' && f == f'
  {
    var s := p + f;
    assert s[|p| - 1] == 125 && (p' + f')[|p'| - 1] == 125;
    assert forall i :: |p| <= i < |s| ==> s[i] == f[i - |p|];
    assert forall i :: |p'| <= i < |s| ==> s[i] == f'[i - |p'|];
    assert |p| == |p'|;
    assert p == s[..|p|] && p' == s[..|p'|] && f == s[|p|..] && f' == s[|p'|..];
  }

  lemma SplitAt(a: Bytes, x: Bytes, a': Bytes, x': Bytes)
    requires |a| == |a'| && a + x == a' + x'
    ensures a == a' && x == x'
  {
    var s := a + x;
    assert a == s[..|a|] && a' == s[..|a|] && x == s[|a|..] && x' == s[|a|..];
  }

  lemma Regroup(a: Bytes, k: Bytes, p: Bytes, f: Bytes)
    ensures a + k + p + f == a + (k + (p + f))
  {}

  /** The concatenation without separators still determines its parts. */
  lemma Unambiguous(a: Bytes, k: Bytes, p: Bytes, at: Time, a': Bytes, k': Bytes, p': Bytes, at': Time)
    requires |a| == |a'| == 32 && NoOpenBrace(k) && NoOpenBrace(k')
    requires IsObject(p) && IsObject(p') && Valid(at) && Valid(at')
    requires EntryInput(a, k, p, at) == EntryInput(a', k', p', at')
    ensures a == a' && k == k' && p == p' && at == at'
  {
    Regroup(a, k, p, Format(at));
    Regroup(a', k', p', Format(at'));
    SplitAt(a, k + (p + Format(at)), a', k' + (p' + Format(at')));
    SplitAtFirstBrace(k, p + Format(at), k', p' + Format(at'));
    FormatHasNoCloseBrace(at);
    FormatHasNoCloseBrace(at');
    SplitAtLastBrace(p, Format(at), p', Format(at'));
    FormatInjective(at, at');
  }

  ghost predicate SameContent(env: Env, r: Row, q: Row) {
    r.kind == q.kind && env.canon(r.payload) == env.canon(q.payload) && Normalize(r.at) == Normalize(q.at)
  }

  ghost predicate CollideAt(env: Env, a: Table, b: Table, i: nat) {
    && i < |a.rows| && i < |b.rows|
    && InputOf(env, a.rows, i) != InputOf(env, b.rows, i)
    && env.hash(InputOf(env, a.rows, i)) == env.hash(InputOf(env, b.rows, i))
  }

  /** Equal messages at one position carry equal content and equal previous hashes. */
  lemma RowsAgree(env: Env, a: Table, b: Table, i: nat)
    requires ChainOK(env, a) && ChainOK(env, b) && i < |a.rows| && i < |b.rows|
    requires Hashable(env, a.rows[i]) && Hashable(env, b.rows[i])
    requires InputOf(env, a.rows, i) == InputOf(env, b.rows, i)
    ensures SameContent(env, a.rows[i], b.rows[i]) && PrevOf(a.rows, i) == PrevOf(b.rows, i)
  {
    PrevIsDigest(env, a, i);
    PrevIsDigest(env, b, i);
    var r, q := a.rows[i], b.rows[i];
    Unambiguous(PrevOf(a.rows, i), r.kind, env.canon(r.payload), Normalize(r.at),
                PrevOf(b.rows, i), q.kind, env.canon(q.payload), Normalize(q.at));
  }

  lemma SameHash(env: Env, a: Table, b: Table, i: nat)
    requires ChainOK(env, a) && ChainOK(env, b) && i < |a.rows| && i < |b.rows|
    requires a.rows[i].entry == b.rows[i].entry
    ensures env.hash(InputOf(env, a.rows, i)) == env.hash(InputOf(env, b.rows, i))
  {
    assert LinkOK(env, a.rows, i) && LinkOK(env, b.rows, i);
  }

  lemma AgreeAt(env: Env, a: Table, b: Table, i: nat)
    requires ChainOK(env, a) && ChainOK(env, b) && i < |a.rows| && i < |b.rows|
    requires Hashable(env, a.rows[i]) && Hashable(env, b.rows[i])
    requires a.rows[i].entry == b.rows[i].entry
    ensures CollideAt(env, a, b, i) ||
            (SameContent(env, a.rows[i], b.rows[i]) && (i > 0 ==> a.rows[i - 1].entry == b.rows[i - 1].entry))
  {
    SameHash(env, a, b, i);
    if InputOf(env, a.rows, i) == InputOf(env, b.rows, i) { RowsAgree(env, a, b, i); }
  }

  ghost predicate Comparable(env: Env, a: Table, b: Table, n: nat) {
    && ChainOK(env, a) && ChainOK(env, b) && n <= |a.rows| && n <= |b.rows|
    && forall k :: 0 <= k < n ==> Hashable(env, a.rows[k]) && Hashable(env, b.rows[k])
  }

  /** From equal entry hashes at position n - 1 downwards. */
  lemma {:induction false} AgreeBelow(env: Env, a: Table, b: Table, n: nat, k: nat) returns (i: nat)
    requires Comparable(env, a, b, n) && k < n && a.rows[n - 1].entry == b.rows[n - 1].entry
    ensures CollideAt(env, a, b, i) || SameContent(env, a.rows[k], b.rows[k])
    decreases n
  {
    i := n - 1;
    AgreeAt(env, a, b, i);
    if k < n - 1 && !CollideAt(env, a, b, i) { i := AgreeBelow(env, a, b, n - 1, k); }
  }

  lemma PrevIsDigest(env: Env, t: Table, i: nat)
    requires ChainOK(env, t) && i < |t.rows|
    ensures |PrevOf(t.rows, i)| == 32
  {
    if i > 0 { assert LinkOK(env, t.rows, i - 1); }
  }

  /** Chain binding: two tables that verify under one head agree in kind, canonical payload and
      normalised time at every position k, or the hash collides on their messages at position i. */
  lemma ChainBinding(env: Env, a: Table, b: Table, k: nat) returns (i: nat)
    requires ChainOK(env, a) && ChainOK(env, b) && a.head.Some? && a.head == b.head && k < |a.rows|
    requires forall n :: 0 <= n < |a.rows| ==> Hashable(env, a.rows[n])
    requires forall n :: 0 <= n < |b.rows| ==> Hashable(env, b.rows[n])
    ensures |a.rows| == |b.rows|
    ensures CollideAt(env, a, b, i) || SameContent(env, a.rows[k], b.rows[k])
  {
    i := AgreeBelow(env, a, b, |a.rows|, k);
  }
}
