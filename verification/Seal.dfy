/** The per-job key stores and the receipt store. Both key stores refine one three-state
    lifecycle: absent, live, destroyed. */
module Seal {
  import opened Basics
  import opened Hashing
  import L = Ledger
  import T = Timestamps

  type JobId = string
  type Material = string
  type Time = T.Time

  /** The zero time. */
  const EPOCH := T.Time(1, 1, 1, 0, 0, 0, 0)

  datatype KeyRow = Live(material: Material) | Destroyed(at: Time)

  datatype KeyAnswer = Key(material: Material) | Missing | KeyDestroyed | Done | Unavailable

  /** `material` is what the random source gives, should the call need it. */
  datatype Call = Ensure(j: JobId, material: Material) | Load(j: JobId) | Destroy(j: JobId, at: Time)

  type Keys = map<JobId, KeyRow>

  function Asked(row: KeyRow): KeyAnswer { if row.Live? then Key(row.material) else KeyDestroyed }

  function KeyStep(keys: Keys, c: Call): (Keys, KeyAnswer) {
    match c
    case Ensure(j, material) =>
      if j in keys then (keys, Asked(keys[j])) else (keys[j := Live(material)], Key(material))
    case Load(j) => (keys, if j in keys then Asked(keys[j]) else Missing)
    case Destroy(j, at) => (if j in keys && keys[j].Live? then keys[j := Destroyed(at)] else keys, Done)
  }

  datatype MemoryRow = MemoryRow(material: Material, destroyed: bool, destroyedAt: Time)

  class MemoryKeyStore {
    var keys: map<JobId, MemoryRow>

    ghost function View(): Keys reads this {
      map j | j in keys :: if keys[j].destroyed then Destroyed(keys[j].destroyedAt) else Live(keys[j].material)
    }

    constructor ()
      ensures View() == map[]
    {
      keys := map[];
    }

    method Ensure(j: JobId, material: Material) returns (a: KeyAnswer)
      modifies this
      ensures (View(), a) == KeyStep(old(View()), Call.Ensure(j, material))
    {
      if j in keys {
        if keys[j].destroyed { return KeyDestroyed; }
        return Key(keys[j].material);
      }
      keys := keys[j := MemoryRow(material, false, EPOCH)];
      assert View() == old(View())[j := Live(material)];
      return Key(material);
    }

    method Load(j: JobId) returns (a: KeyAnswer)
      ensures (View(), a) == KeyStep(View(), Call.Load(j))
    {
      if j !in keys { return Missing; }
      if keys[j].destroyed { return KeyDestroyed; }
      return Key(keys[j].material);
    }

    method Destroy(j: JobId, at: Time)
      modifies this
      ensures View() == KeyStep(old(View()), Call.Destroy(j, at)).0
    {
      if j !in keys || keys[j].destroyed { return; }
      keys := keys[j := MemoryRow("", true, at)];
    }
  }

  /** Material at rest is wrapped, and NULL once destroyed. */
  datatype Wrapping = Wrapping(wrap: Material -> string, unwrap: string -> Material)

  ghost predicate Lossless(v: Wrapping) { forall m :: v.unwrap(v.wrap(m)) == m }

  datatype PgRow = PgRow(material: Option<string>, destroyedAt: Option<Time>)

  ghost function RowView(v: Wrapping, row: PgRow): KeyRow {
    if row.material.Some? then Live(v.unwrap(row.material.value))
    else Destroyed(if row.destroyedAt.Some? then row.destroyedAt.value else EPOCH)
  }

  class PgKeyStore {
    const vault: Wrapping
    var keys: map<JobId, PgRow>

    ghost function View(): Keys reads this { map j | j in keys :: RowView(vault, keys[j]) }

    constructor (vault: Wrapping)
      ensures View() == map[] && this.vault == vault
    {
      this.vault := vault;
      keys := map[];
    }

    /** Two statements without a transaction: when the second fails, the row stays. */
    method Ensure(j: JobId, material: Material, selectFails: bool) returns (a: KeyAnswer)
      requires Lossless(vault)
      modifies this
      ensures View() == KeyStep(old(View()), Call.Ensure(j, material)).0
      ensures a == if selectFails then Unavailable else KeyStep(old(View()), Call.Ensure(j, material)).1
    {
      if j !in keys { keys := keys[j := PgRow(Some(vault.wrap(material)), None)]; }
      if selectFails { return Unavailable; }
      var stored := keys[j].material;
      if stored.None? { return KeyDestroyed; }
      return Key(vault.unwrap(stored.value));
    }

    method Load(j: JobId) returns (a: KeyAnswer)
      ensures (View(), a) == KeyStep(View(), Call.Load(j))
    {
      if j !in keys { return Missing; }
      if keys[j].material.None? { return KeyDestroyed; }
      return Key(vault.unwrap(keys[j].material.value));
    }

    method Destroy(j: JobId, at: Time)
      modifies this
      ensures View() == KeyStep(old(View()), Call.Destroy(j, at)).0
    {
      if j in keys && keys[j].material.Some? { keys := keys[j := PgRow(None, Some(at))]; }
    }
  }

  // ----- the lifecycle over every sequence of calls

  function Run(keys: Keys, calls: seq<Call>): (Keys, seq<KeyAnswer>)
    decreases |calls|
  {
    if calls == [] then (keys, [])
    else
      var (keys', a) := KeyStep(keys, calls[0]);
      var (last, rest) := Run(keys', calls[1..]);
      (last, [a] + rest)
  }

  /** A destroyed key stays destroyed, with the time of its destruction, and no later call
      answers with it; a live key is answered unchanged until it is destroyed. */
  lemma {:induction false} Lifecycle(keys: Keys, calls: seq<Call>, j: JobId)
    requires j in keys
    ensures var (last, answers) := Run(keys, calls);
            && |answers| == |calls| && j in last
            && (keys[j].Destroyed? ==> last[j] == keys[j])
            && (last[j].Live? ==> last[j] == keys[j])
            && (forall i :: 0 <= i < |calls| && calls[i].j == j && answers[i].Key? ==>
                  keys[j] == Live(answers[i].material))
    decreases |calls|
  {
    if calls != [] {
      var keys' := KeyStep(keys, calls[0]).0;
      Lifecycle(keys', calls[1..], j);
      var rest := Run(keys', calls[1..]).1;
      forall i | 0 <= i < |calls| && calls[i].j == j && Run(keys, calls).1[i].Key?
        ensures keys[j] == Live(Run(keys, calls).1[i].material)
      {
        if i > 0 { assert calls[1..][i - 1].j == j && rest[i - 1] == Run(keys, calls).1[i]; }
      }
    }
  }

  // ----- receipts

  datatype Receipt = Receipt(
    job: JobId, redisJob: string, purgedAt: Time, signature: string, signingKeyId: string, tenant: string)

  datatype Inserted = Stored | Present | Failed

  datatype Fault = NoFault | AtBegin | AtReceipt | AtCommit

  /** A receipt as stored: the table has no tenant column. */
  function Columns(r: Receipt): Receipt { r.(tenant := "") }

  /** The receipts and the ledger's two tables. */
  datatype Store = Store(
    rows: map<JobId, Receipt>, heads: map<L.Tenant, L.Head>, entries: map<L.Tenant, seq<L.Row>>)

  function TableOf(s: Store, t: L.Tenant): L.Table { L.TableAt(s.heads, s.entries, t) }

  ghost predicate SameBooks(s: Store, s': Store) { forall t :: TableOf(s', t) == TableOf(s, t) }

  /** The ledger entry of a receipt is in its tenant's table and in no other. */
  ghost predicate Booked(env: L.Env, payload: Bytes, tenant: L.Tenant, at: Time, s: Store, s': Store) {
    && TableOf(s', tenant) == L.Append(env, TableOf(s, tenant), L.Ascii("purge_receipt"), payload, at)
    && forall t :: t != tenant ==> TableOf(s', t) == TableOf(s, t)
  }

  /** What one insert may do: nothing, or the receipt of a new job and its ledger entry. `tenantOf`
      parses the tenant id, `payload` encodes the entry. */
  ghost predicate Insertion(env: L.Env, tenantOf: string -> Option<L.Tenant>, payload: Receipt -> Bytes,
                            s: Store, r: Receipt, s': Store, a: Inserted) {
    match a
    case Failed => s'.rows == s.rows && SameBooks(s, s')
    case Present => r.job in s.rows && s'.rows == s.rows && SameBooks(s, s')
    case Stored =>
      && r.job !in s.rows && s'.rows == s.rows[r.job := Columns(r)]
      && if r.tenant == "" then SameBooks(s, s')
         else tenantOf(r.tenant).Some? && Booked(env, payload(r), tenantOf(r.tenant).value, r.purgedAt, s, s')
  }

  /** The receipt and its ledger row are written in one transaction. */
  class PgReceiptStore {
    var rows: map<JobId, Receipt>
    const ledger: L.Tables

    ghost function Now(): Store reads this, ledger { Store(rows, ledger.heads, ledger.entries) }

    constructor (ledger: L.Tables)
      ensures rows == map[] && this.ledger == ledger
    {
      rows := map[];
      this.ledger := ledger;
    }

    method Insert(env: L.Env, tenantOf: string -> Option<L.Tenant>, payload: Receipt -> Bytes, r: Receipt, fault: Fault)
      returns (a: Inserted)
      modifies this, ledger
      ensures Insertion(env, tenantOf, payload, old(Now()), r, Now(), a)
      ensures fault.NoFault? && (r.tenant == "" || tenantOf(r.tenant).Some?) ==> !a.Failed?
    {
      if fault.AtBegin? { return Failed; }
      var wasRows, wasHeads, wasEntries := rows, ledger.heads, ledger.entries;
      if fault.AtReceipt? { return Failed; }
      var n := if r.job in rows then 0 else 1;
      if n == 1 { rows := rows[r.job := Columns(r)]; }
      if n == 1 && r.tenant != "" {
        var tenant := tenantOf(r.tenant);
        if tenant.None? {
          rows := wasRows;
          return Failed;
        }
        ledger.AppendSQL(env, tenant.value, L.Ascii("purge_receipt"), payload(r), r.purgedAt);
        forall t | t != tenant.value ensures TableOf(Now(), t) == TableOf(old(Now()), t) {
          assert ledger.View(t) == old(ledger.View(t));
        }
        assert Booked(env, payload(r), tenant.value, r.purgedAt, old(Now()), Now());
      }
      if fault.AtCommit? {
        rows, ledger.heads, ledger.entries := wasRows, wasHeads, wasEntries;
        return Failed;
      }
      return if n == 1 then Stored else Present;
    }

    method Lookup(j: JobId) returns (r: Option<Receipt>)
      ensures r == Get(rows, j)
    {
      if j !in rows { return None; }
      return Some(rows[j]);
    }
  }
}
