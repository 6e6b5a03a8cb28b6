/** The settle script on raw stream fields: retry keeps every claimed field, burial keeps every
    field except the input. */
module Settle {
  import opened Basics

  type EntryId = nat

  /** The fields of a flat list of names and values; a later value wins. */
  function Pairs(args: seq<string>): map<string, string> {
    if |args| < 2 then map[] else map[args[0] := args[1]] + Pairs(args[2..])
  }

  function WithoutInput(args: seq<string>): (kept: seq<string>)
    ensures |kept| % 2 == 0
  {
    if |args| < 2 then []
    else (if args[0] != "input" then [args[0], args[1]] else []) + WithoutInput(args[2..])
  }

  lemma MergeMinus(k: string, v: string, m: map<string, string>, x: string)
    ensures k != x ==> map[k := v] + (m - {x}) == (map[k := v] + m) - {x}
    ensures k == x ==> m - {x} == (map[k := v] + m) - {x}
  {}

  /** Dropping the input pairs from the list drops the input and no other field. */
  lemma {:induction false} OnlyInputDropped(args: seq<string>)
    ensures Pairs(WithoutInput(args)) == Pairs(args) - {"input"}
  {
    if |args| >= 2 {
      var rest := WithoutInput(args[2..]);
      OnlyInputDropped(args[2..]);
      MergeMinus(args[0], args[1], Pairs(args[2..]), "input");
      if args[0] != "input" {
        assert WithoutInput(args) == [args[0], args[1]] + rest && WithoutInput(args)[2..] == rest;
      } else {
        assert WithoutInput(args) == rest;
      }
    }
  }

  lemma {:induction false} PairsSnoc(args: seq<string>, k: string, v: string)
    requires |args| % 2 == 0
    ensures Pairs(args + [k, v]) == Pairs(args)[k := v]
  {
    var all := args + [k, v];
    if args == [] {
      assert all == [k, v] && all[2..] == [];
    } else {
      PairsSnoc(args[2..], k, v);
      assert all[0] == args[0] && all[1] == args[1] && all[2..] == args[2..] + [k, v];
      MergeUpdate(map[args[0] := args[1]], Pairs(args[2..]), k, v);
    }
  }

  lemma MergeUpdate(m: map<string, string>, n: map<string, string>, k: string, v: string)
    ensures m + n[k := v] == (m + n)[k := v]
  {}

  /** The arguments of the script, in whatever order the map gives up its fields. */
  method ArgsOf(fields: map<string, string>) returns (args: seq<string>)
    ensures Pairs(args) == fields && |args| % 2 == 0
  {
    args := [];
    var left := fields.Keys;
    while left != {}
      invariant left <= fields.Keys && |args| % 2 == 0
      invariant Pairs(args) == fields - left
      decreases left
    {
      var k :| k in left;
      PairsSnoc(args, k, fields[k]);
      assert (fields - left)[k := fields[k]] == fields - (left - {k});
      args := args + [k, fields[k]];
      left := left - {k};
    }
  }

  datatype Reply = Retry(n: int) | Bury(n: int)

  /** The attempt the script arrives at: a stored count of three or more stays. */
  function Attempt(stored: Option<int>): int {
    if stored.Some? && stored.value >= 3 then stored.value else 1 + if stored.Some? then stored.value else 0
  }

  /** The keys the script touches. */
  datatype View = View(
    retry: map<string, int>,
    stream: map<EntryId, seq<string>>,
    nextEntry: EntryId,
    pending: set<EntryId>,
    dlq: seq<seq<string>>)

  function Dropped(v: View, entry: EntryId): View { v.(stream := v.stream - {entry}, pending := v.pending - {entry}) }

  function AfterRetry(v: View, key: string, entry: EntryId, args: seq<string>): View {
    Dropped(v.(stream := v.stream[v.nextEntry := args], nextEntry := v.nextEntry + 1), entry)
    .(retry := v.retry[key := Attempt(Get(v.retry, key))])
  }

  function AfterBury(v: View, key: string, entry: EntryId, args: seq<string>): View {
    var kept := WithoutInput(args);
    Dropped(v, entry).(retry := v.retry - {key}, dlq := if kept == [] then v.dlq else v.dlq + [kept])
  }

  function Settled(v: View, key: string, entry: EntryId, force: bool, args: seq<string>): (View, Reply) {
    var n := if force then 3 else Attempt(Get(v.retry, key));
    if n < 3 then (AfterRetry(v, key, entry, args), Retry(n)) else (AfterBury(v, key, entry, args), Bury(n))
  }

  class Server {
    var retry: map<string, int>
    var stream: map<EntryId, seq<string>>
    var nextEntry: EntryId
    var pending: set<EntryId>
    var dlq: seq<seq<string>>

    constructor ()
      ensures Now() == View(map[], map[], 0, {}, [])
    {
      retry, stream, nextEntry, pending, dlq := map[], map[], 0, {}, [];
    }

    ghost function Now(): View reads this { View(retry, stream, nextEntry, pending, dlq) }

    method Script(key: string, entry: EntryId, force: bool, args: seq<string>) returns (reply: Reply)
      modifies this
      ensures (Now(), reply) == Settled(old(Now()), key, entry, force, args)
    {
      var n := 3;
      if !force {
        var raw := Get(retry, key);
        if raw.Some? && raw.value >= 3 {
          n := raw.value;
        } else {
          n := 1 + if raw.Some? then raw.value else 0;
          retry := retry[key := n];
        }
      }
      if !force && n < 3 {
        stream, nextEntry := stream[nextEntry := args], nextEntry + 1;
        pending := pending - {entry};
        stream := stream - {entry};
        return Retry(n);
      }
      var fields := FilterFields(args);
      if |fields| > 0 { dlq := dlq + [fields]; }
      pending := pending - {entry};
      stream := stream - {entry};
      retry := retry - {key};
      assert retry == old(retry) - {key};
      return Bury(n);
    }

    /** Settling passes the claimed fields, sealed input and all, in any order. */
    method Settle(jobId: string, entry: EntryId, force: bool, fields: map<string, string>)
      returns (reply: Reply, ghost args: seq<string>)
      modifies this
      ensures Pairs(args) == fields
      ensures (Now(), reply) == Settled(old(Now()), "retry:" + jobId, entry, force, args)
    {
      var flat := ArgsOf(fields);
      args := flat;
      reply := Script("retry:" + jobId, entry, force, flat);
    }
  }

  lemma EmptyOnlyWithoutFields(args: seq<string>)
    ensures WithoutInput(args) == [] <==> Pairs(args).Keys <= {"input"}
  {
    OnlyInputDropped(args);
    if WithoutInput(args) != [] {
      var kept := WithoutInput(args);
      assert kept[0] in Pairs(kept);
      assert kept[0] in Pairs(args) - {"input"};
    } else {
      assert forall k :: k in Pairs(args) && k != "input" ==> k in Pairs(args) - {"input"};
    }
  }

  lemma FilterStep(args: seq<string>, i: nat)
    requires i + 1 < |args|
    ensures WithoutInput(args[i..])
            == (if args[i] != "input" then [args[i], args[i + 1]] else []) + WithoutInput(args[i + 2..])
  {
    assert args[i..][2..] == args[i + 2..];
  }

  lemma Reassociate(a: seq<string>, b: seq<string>, c: seq<string>)
    ensures a + (b + c) == (a + b) + c
  {}

  method FilterFields(args: seq<string>) returns (fields: seq<string>)
    ensures fields == WithoutInput(args)
  {
    fields := [];
    var i := 0;
    assert args[0..] == args;
    while i + 1 < |args|
      invariant 0 <= i <= |args| && WithoutInput(args) == fields + WithoutInput(args[i..])
    {
      FilterStep(args, i);
      if args[i] != "input" {
        Reassociate(fields, [args[i], args[i + 1]], WithoutInput(args[i + 2..]));
        fields := fields + [args[i], args[i + 1]];
      } else {
        assert [] + WithoutInput(args[i + 2..]) == WithoutInput(args[i + 2..]);
      }
      i := i + 2;
    }
    assert WithoutInput(args[i..]) == [];
  }
}
