/** Bringing every interactive TPU to the same set of SSH keys: the admin's union and the users' requests. */
module KeySync {
  import opened Types
  import opened SshKeys
  import opened KeyLines

  type Identity = (string, string)

  function IdsOf(lines: seq<string>): set<Identity> {
    set l | l in lines && KeyIdentity(l).Some? :: KeyIdentity(l).value
  }

  /** The identities a node accepts. */
  function Ids(raw: string): set<Identity> {
    IdsOf(NodeLines(raw))
  }

  /** Some line of the node is a key of the user with this blob. */
  ghost predicate Accepts(raw: string, user: string, blob: string) {
    exists l <- NodeLines(raw) :: KeyLine(l, user, blob)
  }

  lemma IdsAre(lines: seq<string>)
    ensures forall user, blob :: (user, blob) in IdsOf(lines) <==> exists l <- lines :: KeyLine(l, user, blob)
  {
    hide KeyIdentity, KeyLine;
    forall user, blob, l | l in lines
      ensures KeyIdentity(l) == Some((user, blob)) <==> KeyLine(l, user, blob)
    {
      IdentityIff(l, user, blob);
    }
  }

  lemma AcceptsIff(raw: string)
    ensures forall user, blob :: Accepts(raw, user, blob) <==> (user, blob) in Ids(raw)
  {
    hide KeyIdentity, KeyLine;
    IdsAre(NodeLines(raw));
  }

  lemma IdsGrow(a: seq<string>, b: seq<string>)
    requires a <= b
    ensures IdsOf(a) <= IdsOf(b)
  {
    hide KeyIdentity;
    assert forall l <- a :: l in b;
  }

  lemma IdsAppend(a: seq<string>, b: seq<string>)
    ensures IdsOf(a + b) == IdsOf(a) + IdsOf(b)
  {
    hide KeyIdentity;
  }

  /** The part of the backend that key synchronisation uses. Nobody else writes the metadata meanwhile. */
  class KeyBackend {
    const reliable: bool
    var metadata: map<string, string>
    /** `ssh-key-requests/`: file name to content. */
    var requests: map<string, string>
    ghost var writes: nat

    constructor (reliable: bool, metadata: map<string, string>, requests: map<string, string>)
      ensures this.reliable == reliable && this.metadata == metadata && this.requests == requests && writes == 0
    {
      this.reliable, this.metadata, this.requests, writes := reliable, metadata, requests, 0;
    }

    /** `get_tpu_vm_ssh_keys`: `None` means the node could not be read. */
    method Get(node: string) returns (raw: Option<string>)
      ensures raw.Some? ==> node in metadata && raw.value == metadata[node]
      ensures reliable && node in metadata ==> raw.Some?
    {
      var fail: bool := *;
      raw := if (!fail || reliable) && node in metadata then Some(metadata[node]) else None;
    }

    /** `set_tpu_vm_ssh_keys`: a failed update leaves the metadata as it was. */
    method Set(node: string, value: string) returns (ok: bool)
      requires node in metadata
      modifies this`metadata, this`writes
      ensures metadata == if ok then old(metadata)[node := value] else old(metadata)
      ensures writes == old(writes) + 1 && (reliable ==> ok)
    {
      ok := *;
      ok := ok || reliable;
      if ok { metadata := metadata[node := value]; }
      writes := writes + 1;
    }

    method ReadRequest(name: string) returns (content: Option<string>)
      ensures content.Some? ==> name in requests && content.value == requests[name]
      ensures reliable && name in requests ==> content.Some?
    {
      var fail: bool := *;
      content := if (!fail || reliable) && name in requests then Some(requests[name]) else None;
    }

    /** Deleting may fail unnoticed. */
    method DeleteRequest(name: string)
      modifies this`requests
      ensures requests == old(requests) || requests == old(requests) - {name}
      ensures reliable ==> requests == old(requests) - {name}
    {
      var fail: bool := *;
      if !fail || reliable { requests := requests - {name}; }
    }
  }

  // ---------- `cmd_admin_ssh_keys` ----------

  ghost predicate Canonical(entries: map<Identity, string>) {
    forall id <- entries :: KeyIdentity(entries[id]) == Some(id) && CleanLine(entries[id])
  }

  /** One node's lines go into the union; lines without identity stay behind. */
  method Collect(lines: seq<string>, before: map<Identity, string>) returns (ids: set<Identity>, union: map<Identity, string>)
    requires Canonical(before) && forall l <- lines :: CleanLine(l)
    ensures Canonical(union) && ids == IdsOf(lines) && union.Keys == before.Keys + ids
    // Each key line of any form counts, with a comment or without.
    ensures forall user, blob :: (user, blob) in ids <==> exists l <- lines :: KeyLine(l, user, blob)
    ensures forall id <- before :: union[id] == before[id]
  {
    hide KeyIdentity, CleanLine, KeyLine;
    IdsAre(lines);
    ids, union := {}, before;
    var i := 0;
    while i < |lines|
      invariant 0 <= i <= |lines| && ids == IdsOf(lines[..i])
      invariant Canonical(union) && union.Keys == before.Keys + ids
      invariant forall id <- before :: union[id] == before[id]
    {
      assert lines[..i + 1] == lines[..i] + [lines[i]];
      IdsAppend(lines[..i], [lines[i]]);
      var id := KeyIdentity(lines[i]);
      if id.Some? {
        ids := ids + {id.value};
        if id.value !in union {
          union := union[id.value := lines[i]];
        }
      }
      i := i + 1;
    }
    assert lines[..i] == lines;
  }

  lemma NothingLeft(a: set<Identity>, b: set<Identity>)
    ensures a - b == {} <==> a <= b
  {
    if a - b == {} {
      forall x | x in a ensures x in b { assert x in a - b || x in b; }
    }
  }

  /** The entries of the union a node lacks. */
  method Missing(union: map<Identity, string>, ids: set<Identity>) returns (missing: seq<string>)
    requires Canonical(union)
    ensures forall l <- missing :: CleanLine(l) && KeyIdentity(l).Some? && KeyIdentity(l).value !in ids && KeyIdentity(l).value in union
    ensures IdsOf(missing) == union.Keys - ids
    ensures missing == [] <==> union.Keys <= ids
  {
    hide KeyIdentity, CleanLine;
    missing := [];
    var todo := union.Keys - ids;
    while todo != {}
      invariant todo <= union.Keys - ids && IdsOf(missing) == union.Keys - ids - todo
      invariant forall l <- missing :: CleanLine(l) && KeyIdentity(l).Some? && KeyIdentity(l).value !in ids && KeyIdentity(l).value in union
      invariant missing == [] <==> todo == union.Keys - ids
    {
      var id :| id in todo;
      IdsAppend(missing, [union[id]]);
      assert IdsOf([union[id]]) == {id};
      missing := missing + [union[id]];
      todo := todo - {id};
    }
    NothingLeft(union.Keys, ids);
  }

  /** What one node is brought to: its lines, then lines of others it lacked, so that it accepts exactly the union. */
  ghost predicate Merged(old_: string, new_: string, all: set<Identity>) {
    && NodeLines(old_) <= NodeLines(new_) && Ids(new_) == Ids(old_) + all
    && forall l <- NodeLines(new_)[|NodeLines(old_)|..] :: KeyIdentity(l).Some? && KeyIdentity(l).value in all && KeyIdentity(l).value !in Ids(old_)
  }

  lemma MergeMeans(raw: string, missing: seq<string>, all: set<Identity>)
    requires forall l <- missing :: CleanLine(l) && KeyIdentity(l).Some? && KeyIdentity(l).value !in Ids(raw) && KeyIdentity(l).value in all
    requires IdsOf(missing) == all - Ids(raw)
    ensures Merged(raw, Join(NodeLines(raw) + missing), all)
  {
    hide KeyIdentity, CleanLine, NodeLines, Join;
    var lines := NodeLines(raw);
    NodeLinesClean(raw);
    SplitUndoesJoin(lines + missing);
    IdsAppend(lines, missing);
    assert (lines + missing)[|lines|..] == missing;
  }

  /** What each readable node held when it was read. */
  ghost predicate WasRead(read: map<string, set<Identity>>, metadata: map<string, string>) {
    forall n <- read :: n in metadata && read[n] == Ids(metadata[n])
  }

  ghost function Union(read: map<string, set<Identity>>, added: set<Identity>): set<Identity> {
    (set n, id | n in read && id in read[n] :: id) + added
  }

  /** The reading half: every node's identities, and one line for each identity met anywhere. */
  method ReadAll(backend: KeyBackend, tpus: set<string>) returns (read: map<string, set<Identity>>, union: map<Identity, string>)
    ensures WasRead(read, backend.metadata) && read.Keys <= tpus && (backend.reliable ==> tpus * backend.metadata.Keys <= read.Keys)
    ensures Canonical(union) && union.Keys == Union(read, {})
  {
    hide KeyIdentity, CleanLine, NodeLines;
    read, union := map[], map[];
    var todo := tpus;
    while todo != {}
      invariant todo <= tpus && read.Keys <= tpus - todo
      invariant WasRead(read, backend.metadata) && Canonical(union) && union.Keys == Union(read, {})
      invariant backend.reliable ==> (tpus - todo) * backend.metadata.Keys <= read.Keys
    {
      var n :| n in todo;
      todo := todo - {n};
      var raw := backend.Get(n);
      if raw.Some? {
        NodeLinesClean(raw.value);
        var ids;
        ids, union := Collect(NodeLines(raw.value), union);
        ghost var was := read;
        read := read[n := ids];
        UnionOn(was, n, ids);
      }
    }
  }

  lemma UnionOn(read: map<string, set<Identity>>, n: string, ids: set<Identity>)
    requires n !in read
    ensures Union(read[n := ids], {}) == Union(read, {}) + ids
  {
    var after := read[n := ids];
    forall id
      ensures id in Union(after, {}) <==> id in Union(read, {}) + ids
    {
      if id in ids { assert id in after[n]; }
      if id in Union(read, {}) {
        var m :| m in read && id in read[m];
        assert id in after[m];
      }
    }
  }

  /** One node of the writing half. */
  method UpdateNode(backend: KeyBackend, n: string, union: map<Identity, string>, ids: set<Identity>, yes: bool)
      returns (lacking: bool, ok: bool)
    requires n in backend.metadata && ids == Ids(backend.metadata[n]) && ids <= union.Keys && Canonical(union)
    modifies backend`metadata, backend`writes
    ensures lacking <==> !(union.Keys <= ids)
    ensures !lacking || !yes || !ok ==> backend.metadata == old(backend.metadata)
    ensures !lacking || !yes ==> ok && backend.writes == old(backend.writes)
    ensures backend.reliable ==> ok
    ensures backend.metadata.Keys == old(backend.metadata).Keys && (yes && ok ==> Ids(backend.metadata[n]) == union.Keys)
    ensures lacking && yes && ok ==> exists value ::
              backend.metadata == old(backend.metadata)[n := value] && Merged(old(backend.metadata)[n], value, union.Keys)
  {
    hide KeyIdentity, CleanLine, NodeLines, Join, Merged, Ids;
    var missing := Missing(union, ids);
    lacking, ok := missing != [], true;
    if lacking && yes {
      var raw := backend.metadata[n];
      MergeMeans(raw, missing, union.Keys);
      MergedIds(raw, Join(NodeLines(raw) + missing), union.Keys);
      ok := backend.Set(n, Join(NodeLines(raw) + missing));
    }
  }

  /** The writing half: every readable node that lacks a key is brought to the union, or left alone without `yes`. */
  method UpdateAll(backend: KeyBackend, found: map<string, set<Identity>>, union: map<Identity, string>, yes: bool)
      returns (planned: nat, failed: nat)
    requires Canonical(union) && WasRead(found, backend.metadata) && forall n <- found :: found[n] <= union.Keys
    modifies backend`metadata, backend`writes
    ensures backend.metadata.Keys == old(backend.metadata).Keys
    ensures forall n <- old(backend.metadata) :: backend.metadata[n] == old(backend.metadata)[n] ||
              (yes && n in found && Merged(old(backend.metadata)[n], backend.metadata[n], union.Keys))
    ensures yes && failed == 0 ==> forall n <- found :: Ids(backend.metadata[n]) == union.Keys
    ensures backend.reliable ==> failed == 0
    ensures planned == 0 <==> forall n <- found :: union.Keys <= found[n]
    ensures planned == 0 || !yes ==> failed == 0 && backend.metadata == old(backend.metadata) && backend.writes == old(backend.writes)
  {
    hide KeyIdentity, CleanLine, NodeLines, Join, Ids, Merged, Canonical;
    planned, failed := 0, 0;
    var todo := found.Keys;
    ghost var was := backend.metadata;
    while todo != {}
      invariant todo <= found.Keys && backend.metadata.Keys == was.Keys
      invariant forall n <- was :: n in todo || n !in found ==> backend.metadata[n] == was[n]
      invariant forall n <- was :: backend.metadata[n] == was[n] || (yes && n in found && Merged(was[n], backend.metadata[n], union.Keys))
      invariant yes && failed == 0 ==> forall n <- found :: n !in todo ==> Ids(backend.metadata[n]) == union.Keys
      invariant backend.reliable ==> failed == 0
      invariant planned == 0 <==> forall n <- found :: n !in todo ==> union.Keys <= found[n]
      invariant planned == 0 || !yes ==> failed == 0 && backend.metadata == was && backend.writes == old(backend.writes)
    {
      var n :| n in todo;
      todo := todo - {n};
      var lacking, ok := UpdateNode(backend, n, union, found[n], yes);
      if lacking {
        planned := planned + 1;
      }
      if !ok {
        failed := failed + 1;
      }
    }
  }

  /** Each of these nodes has a key line for a user and blob exactly if one of them had one, or it was added. */
  ghost predicate Spread(before: map<string, string>, after: map<string, string>, nodes: set<string>, added: set<Identity>) {
    && nodes <= before.Keys && nodes <= after.Keys
    && forall n <- nodes, user, blob ::
         Accepts(after[n], user, blob) <==> (user, blob) in added || exists m <- nodes :: Accepts(before[m], user, blob)
  }

  lemma KeysSpread(before: map<string, string>, after: map<string, string>, read: map<string, set<Identity>>, added: set<Identity>)
    requires WasRead(read, before) && after.Keys == before.Keys && forall n <- read :: Ids(after[n]) == Union(read, added)
    ensures Spread(before, after, read.Keys, added)
  {
    hide Accepts, Ids;
    forall n, user, blob | n in read
      ensures Accepts(after[n], user, blob) <==> (user, blob) in Union(read, added)
      ensures Accepts(before[n], user, blob) <==> (user, blob) in read[n]
    {
      AcceptsIff(after[n]);
      AcceptsIff(before[n]);
    }
  }

  /**
   `cmd_admin_ssh_keys`. `added` are the `--add` entries by identity; `yes` is the flag without which
   nothing is written. `planned` counts the nodes found to lack a key, `failed` the writes that failed.
   */
  method AdminSync(backend: KeyBackend, tpus: set<string>, added: map<Identity, string>, yes: bool)
      returns (exitCode: int, planned: nat, failed: nat, ghost read: map<string, set<Identity>>)
    requires Canonical(added)
    modifies backend`metadata, backend`writes
    ensures read.Keys <= tpus && WasRead(read, old(backend.metadata)) && backend.metadata.Keys == old(backend.metadata).Keys
    ensures backend.reliable ==> tpus * old(backend.metadata).Keys <= read.Keys && failed == 0
    // Only readable nodes are written, each to exactly the union of all of them and the added entries, or not at all.
    ensures forall n <- old(backend.metadata) :: backend.metadata[n] == old(backend.metadata)[n] ||
              (yes && n in read && Merged(old(backend.metadata)[n], backend.metadata[n], Union(read, added.Keys)))
    // When no write fails they all converge.
    ensures yes && failed == 0 ==> forall n <- read :: Ids(backend.metadata[n]) == Union(read, added.Keys)
    // Told by the lines: each readable node then accepts exactly the keys that some readable node had, or that were added.
    ensures yes && failed == 0 ==> Spread(old(backend.metadata), backend.metadata, read.Keys, added.Keys)
    ensures exitCode == 0 <==> tpus != {} && tpus <= read.Keys && failed == 0
    ensures planned == 0 <==> forall n <- read :: Union(read, added.Keys) <= read[n]
    ensures planned == 0 || !yes ==> backend.metadata == old(backend.metadata) && backend.writes == old(backend.writes)
  {
    hide KeyIdentity, CleanLine, NodeLines, Join, Ids, Merged, Union, Canonical, Spread;
    if tpus == {} {
      KeysSpread(backend.metadata, backend.metadata, map[], added.Keys);
      return 1, 0, 0, map[];
    }
    var found, union := ReadAll(backend, tpus);
    read := found;
    UnionAdded(read, added.Keys);
    CanonicalSum(union, added);
    union := union + added;
    forall n | n in found
      ensures found[n] <= union.Keys
    {
      WithinUnion(found, added.Keys, n);
    }
    planned, failed := UpdateAll(backend, found, union, yes);
    if yes && failed == 0 { KeysSpread(old(backend.metadata), backend.metadata, read, added.Keys); }
    exitCode := if tpus <= found.Keys && failed == 0 then 0 else 1;
  }

  /**
   A second run right after one in which no write failed finds nothing to do on the nodes the first could read,
   whatever fails in the second. So it plans nothing if the first has exit code 0.
   */
  method AdminSyncTwice(backend: KeyBackend, tpus: set<string>, added: map<Identity, string>)
      returns (first: int, planned: nat, failed: nat, ghost read: map<string, set<Identity>>, ghost reread: map<string, set<Identity>>)
    requires Canonical(added)
    modifies backend`metadata, backend`writes
    ensures read.Keys <= tpus && reread.Keys <= tpus && (first == 0 <==> tpus != {} && read.Keys == tpus && failed == 0)
    ensures failed == 0 && reread.Keys <= read.Keys ==> planned == 0
    ensures first == 0 ==> planned == 0
  {
    hide Ids, Merged;
    first, planned, failed, read := AdminSync(backend, tpus, added, true);
    ghost var all := Union(read, added.Keys);
    var _, again, _, found := AdminSync(backend, tpus, added, true);
    planned, reread := again, found;
    if failed == 0 && reread.Keys <= read.Keys {
      assert forall n <- reread :: reread[n] == all;
      assert Union(reread, added.Keys) <= all;
    }
  }

  lemma CanonicalSum(a: map<Identity, string>, b: map<Identity, string>)
    requires Canonical(a) && Canonical(b)
    ensures Canonical(a + b)
  {
    hide KeyIdentity, CleanLine;
  }

  lemma UnionAdded(read: map<string, set<Identity>>, added: set<Identity>)
    ensures Union(read, {}) + added == Union(read, added)
  {
  }

  lemma WithinUnion(read: map<string, set<Identity>>, added: set<Identity>, n: string)
    requires n in read
    ensures read[n] <= Union(read, added)
  {
    forall id | id in read[n]
      ensures id in Union(read, added)
    {
    }
  }

  lemma MergedIds(a: string, b: string, all: set<Identity>)
    requires Merged(a, b, all) && Ids(a) <= all
    ensures Ids(b) == all
  {
    hide KeyIdentity, NodeLines;
  }

  // ---------- `sync_interactive_ssh_key_requests` ----------

  predicate IsRequest(name: string) {
    |name| >= 4 && name[|name| - 4..] == ".pub"
  }

  /** A request's user is its file name. */
  function UserOf(name: string): string
    requires IsRequest(name)
  {
    name[..|name| - 4]
  }

  /** The entry a request asks for, if it is accepted. */
  function Asked(valid: string -> bool, requests: map<string, string>, name: string): Option<string> {
    if name in requests && IsRequest(name) then
      var e := NormalizedKeyEntry(valid, UserOf(name), requests[name]);
      if e.Ok? then Some(e.value) else None
    else None
  }

  /** Every line a node has gained is a line of an entry some request asked for. */
  ghost predicate GainedFrom(valid: string -> bool, requests: map<string, string>, a: string, b: string) {
    && NodeLines(a) <= NodeLines(b)
    && forall l <- NodeLines(b)[|NodeLines(a)|..] :: Requested(valid, requests, l)
  }

  ghost predicate Requested(valid: string -> bool, requests: map<string, string>, l: string) {
    exists name <- requests :: Asked(valid, requests, name).Some? && l in NodeLines(Asked(valid, requests, name).value)
  }

  ghost predicate AllGained(valid: string -> bool, requests: map<string, string>, a: map<string, string>, b: map<string, string>) {
    b.Keys == a.Keys && forall n <- a :: GainedFrom(valid, requests, a[n], b[n])
  }

  lemma GainedNothing(valid: string -> bool, requests: map<string, string>, a: map<string, string>)
    ensures AllGained(valid, requests, a, a)
  {
    hide NodeLines, Requested;
  }

  lemma GainedOn(valid: string -> bool, requests: map<string, string>, a: map<string, string>, b: map<string, string>, c: map<string, string>)
    requires AllGained(valid, requests, a, b) && AllGained(valid, requests, b, c)
    ensures AllGained(valid, requests, a, c)
  {
    hide NodeLines, Requested;
    forall n | n in a
      ensures GainedFrom(valid, requests, a[n], c[n])
    {
      assert GainedFrom(valid, requests, a[n], b[n]) && GainedFrom(valid, requests, b[n], c[n]);
      var x, y, z := NodeLines(a[n]), NodeLines(b[n]), NodeLines(c[n]);
      forall l | l in z[|x|..]
        ensures Requested(valid, requests, l)
      {
        assert l in y[|x|..] || l in z[|y|..] by {
          var i :| 0 <= i < |z[|x|..]| && z[|x|..][i] == l;
          assert z[|x| + i] == l;
          if |x| + i < |y| { assert y[|x|..][i] == l; } else { assert z[|y|..][|x| + i - |y|] == l; }
        }
      }
    }
  }

  /** Appending an accepted entry of a plain user makes the node accept its identity. */
  lemma AppendMeans(valid: string -> bool, requests: map<string, string>, name: string, raw: string)
    requires Asked(valid, requests, name).Some?
    ensures var e := Asked(valid, requests, name).value;
            && GainedFrom(valid, requests, raw, Join(NodeLines(raw) + [e]))
            && (PlainUser(UserOf(name)) ==> KeyIdentity(e).Some? && KeyIdentity(e).value in Ids(Join(NodeLines(raw) + [e])))
  {
    hide KeyIdentity, NodeLines, CleanLine, Join, NormalizedKeyEntry;
    var e := Asked(valid, requests, name).value;
    var lines := NodeLines(raw);
    NodeLinesClean(raw);
    SplitAfterAppend(lines, e);
    assert (lines + NodeLines(e))[|lines|..] == NodeLines(e);
    if PlainUser(UserOf(name)) {
      PlainEntry(valid, UserOf(name), requests[name]);
      IdsAppend(lines, NodeLines(e));
      assert e in NodeLines(e);
    }
  }

  /** An accepted entry of a plain user is one line, and its identity carries that user. */
  lemma PlainEntry(valid: string -> bool, user: string, text: string)
    requires PlainUser(user) && NormalizedKeyEntry(valid, user, text).Ok?
    ensures var e := NormalizedKeyEntry(valid, user, text).value;
            NodeLines(e) == [e] && KeyIdentity(e).Some? && KeyIdentity(e).value.0 == user
  {
    hide NormalizedKeyEntry, KeyIdentity, NodeLines, CleanLine, Entry;
    AcceptedShape(valid, user, text);
    var kind, blob :| Word(kind) && Word(blob) && KnownType(kind) && valid(blob) && NormalizedKeyEntry(valid, user, text).value == Entry(user, kind, blob);
    EntryIdentity(user, kind, blob);
    BreakFirst(Entry(user, kind, blob), "");
  }

  /** `any(ssh_key_identity(line) == identity for line in lines)` */
  method Holds(lines: seq<string>, identity: Option<Identity>) returns (found: bool)
    ensures identity.Some? ==> (found <==> identity.value in IdsOf(lines))
    ensures identity.None? ==> (found <==> exists l <- lines :: KeyIdentity(l).None?)
  {
    hide KeyIdentity;
    found := false;
    var i := 0;
    while i < |lines|
      invariant 0 <= i <= |lines|
      invariant found <==> exists k :: 0 <= k < i && KeyIdentity(lines[k]) == identity
    {
      found := found || KeyIdentity(lines[i]) == identity;
      i := i + 1;
    }
    if identity.Some? && identity.value in IdsOf(lines) {
      var l :| l in lines && KeyIdentity(l).Some? && KeyIdentity(l).value == identity.value;
    }
  }

  /** One request on one node. */
  method ProvideOn(backend: KeyBackend, n: string, valid: string -> bool, ghost requests: map<string, string>, ghost name: string, entry: string)
      returns (there: bool)
    requires Asked(valid, requests, name) == Some(entry)
    modifies backend`metadata, backend`writes
    ensures AllGained(valid, requests, old(backend.metadata), backend.metadata)
    ensures there && PlainUser(UserOf(name)) ==>
              n in backend.metadata && KeyIdentity(entry).Some? && KeyIdentity(entry).value in Ids(backend.metadata[n])
    ensures backend.reliable && n in old(backend.metadata) ==> there
    ensures KeyIdentity(entry).Some? && n in old(backend.metadata) && KeyIdentity(entry).value in Ids(old(backend.metadata)[n]) ==>
              backend.metadata == old(backend.metadata) && backend.writes == old(backend.writes)
    ensures n !in old(backend.metadata) ==> backend.metadata == old(backend.metadata) && backend.writes == old(backend.writes)
  {
    hide KeyIdentity, NodeLines, CleanLine, Join, NormalizedKeyEntry, AllGained;
    GainedNothing(valid, requests, backend.metadata);
    var raw := backend.Get(n);
    if raw.None? {
      return false;
    }
    var lines := NodeLines(raw.value);
    if PlainUser(UserOf(name)) { PlainEntry(valid, UserOf(name), requests[name]); }
    var found := Holds(lines, KeyIdentity(entry));
    if found {
      return true;
    }
    AppendMeans(valid, requests, name, raw.value);
    ghost var was := backend.metadata;
    there := backend.Set(n, Join(lines + [entry]));
    if there {
      GainedAt(valid, requests, was, n, Join(lines + [entry]));
    }
  }

  lemma GainedAt(valid: string -> bool, requests: map<string, string>, a: map<string, string>, n: string, value: string)
    requires n in a && GainedFrom(valid, requests, a[n], value)
    ensures AllGained(valid, requests, a, a[n := value])
  {
    hide NodeLines, Requested;
  }

  /** The node accepts what the request asks for. */
  ghost predicate Provided(metadata: map<string, string>, tpus: seq<string>, entry: string) {
    KeyIdentity(entry).Some? && forall n <- tpus :: n in metadata && KeyIdentity(entry).value in Ids(metadata[n])
  }

  lemma ProvidedStays(valid: string -> bool, requests: map<string, string>, a: map<string, string>, b: map<string, string>, n: string, id: Identity)
    requires AllGained(valid, requests, a, b) && n in a && id in Ids(a[n])
    ensures n in b && id in Ids(b[n])
  {
    hide KeyIdentity, NodeLines, Requested;
    assert GainedFrom(valid, requests, a[n], b[n]);
    IdsGrow(NodeLines(a[n]), NodeLines(b[n]));
  }

  /** One accepted request on every node. */
  method Provide(backend: KeyBackend, tpus: seq<string>, valid: string -> bool, ghost requests: map<string, string>, ghost name: string, entry: string)
      returns (everywhere: bool)
    requires Asked(valid, requests, name) == Some(entry)
    modifies backend`metadata, backend`writes
    ensures AllGained(valid, requests, old(backend.metadata), backend.metadata)
    ensures everywhere && PlainUser(UserOf(name)) && tpus != [] ==> Provided(backend.metadata, tpus, entry)
    ensures backend.reliable && (forall n <- tpus :: n in old(backend.metadata)) ==> everywhere
    ensures Provided(old(backend.metadata), tpus, entry) ==>
              backend.metadata == old(backend.metadata) && backend.writes == old(backend.writes)
  {
    hide KeyIdentity, NodeLines, NormalizedKeyEntry, AllGained;
    everywhere := true;
    ghost var was := backend.metadata;
    GainedNothing(valid, requests, was);
    var i := 0;
    while i < |tpus|
      invariant 0 <= i <= |tpus| && AllGained(valid, requests, was, backend.metadata) && backend.metadata.Keys == was.Keys
      invariant everywhere && PlainUser(UserOf(name)) && i > 0 ==> Provided(backend.metadata, tpus[..i], entry)
      invariant backend.reliable && (forall n <- tpus :: n in was) ==> everywhere
      invariant Provided(was, tpus, entry) ==> backend.metadata == was && backend.writes == old(backend.writes)
    {
      ghost var before := backend.metadata;
      assert tpus[i] in tpus;
      var there := ProvideOn(backend, tpus[i], valid, requests, name, entry);
      GainedOn(valid, requests, was, before, backend.metadata);
      GainedKeys(valid, requests, before, backend.metadata);
      assert tpus[..i + 1] == tpus[..i] + [tpus[i]];
      if everywhere && there && PlainUser(UserOf(name)) {
        forall n | n in tpus[..i]
          ensures n in backend.metadata && KeyIdentity(entry).value in Ids(backend.metadata[n])
        {
          ProvidedStays(valid, requests, before, backend.metadata, n, KeyIdentity(entry).value);
        }
      }
      everywhere := everywhere && there;
      i := i + 1;
    }
    assert tpus[..i] == tpus;
  }

  lemma GainedKeys(valid: string -> bool, requests: map<string, string>, a: map<string, string>, b: map<string, string>)
    requires AllGained(valid, requests, a, b)
    ensures b.Keys == a.Keys
  {
  }

  /** What has become of a request that is no longer there. */
  ghost predicate Settled(valid: string -> bool, requests: map<string, string>, name: string, metadata: map<string, string>, tpus: seq<string>)
  {
    var e := Asked(valid, requests, name);
    e.None? || (IsRequest(name) && PlainUser(UserOf(name)) ==> Provided(metadata, tpus, e.value))
  }

  lemma SettledStays(valid: string -> bool, requests: map<string, string>, a: map<string, string>, b: map<string, string>, tpus: seq<string>)
    requires AllGained(valid, requests, a, b)
    ensures forall name :: Settled(valid, requests, name, a, tpus) ==> Settled(valid, requests, name, b, tpus)
    ensures forall entry :: Provided(a, tpus, entry) ==> Provided(b, tpus, entry)
  {
    hide KeyIdentity, NodeLines, Asked, AllGained;
    forall entry | Provided(a, tpus, entry)
      ensures Provided(b, tpus, entry)
    {
      forall n | n in tpus
        ensures n in b && KeyIdentity(entry).value in Ids(b[n])
      {
        ProvidedStays(valid, requests, a, b, n, KeyIdentity(entry).value);
      }
    }
  }

  /** `sync_interactive_ssh_key_requests` */
  method SyncRequests(backend: KeyBackend, tpus: seq<string>, valid: string -> bool)
    modifies backend`metadata, backend`writes, backend`requests
    // Node lines only grow, by lines of entries that requests asked for.
    ensures AllGained(valid, old(backend.requests), old(backend.metadata), backend.metadata)
    // A request goes only when it is refused or every node accepts its key.
    ensures forall name <- old(backend.requests) ::
              name in backend.requests || Settled(valid, old(backend.requests), name, backend.metadata, tpus)
    ensures forall name <- backend.requests :: name in old(backend.requests) && backend.requests[name] == old(backend.requests)[name]
    // When nothing fails, no request is left.
    ensures backend.reliable && tpus != [] && (forall n <- tpus :: n in old(backend.metadata)) ==>
              forall name <- backend.requests :: !(|name| >= 4 && name[|name| - 4..] == ".pub")
    // Told by the files: once an acceptable key in `user.pub` is gone, every node has it as a key of that user.
    ensures forall user, kind, blob :: SettledKey(valid, old(backend.requests), backend.requests, user, kind, blob) ==>
              forall n <- tpus :: n in backend.metadata && Accepts(backend.metadata[n], user, blob)
    // When every node already accepts every requested key, nothing is written.
    ensures (forall name <- old(backend.requests) :: Asked(valid, old(backend.requests), name).Some? ==>
                Provided(old(backend.metadata), tpus, Asked(valid, old(backend.requests), name).value))
              ==> backend.metadata == old(backend.metadata) && backend.writes == old(backend.writes)
  {
    hide KeyIdentity, NodeLines, NormalizedKeyEntry, AllGained, Provided, Settled, PlainUser, KeyFile, Accepts, LoginName, SettledKey;
    ghost var was, asked := backend.metadata, backend.requests;
    GainedNothing(valid, asked, was);
    if tpus == [] {
      return;
    }
    var listed: bool := *;
    var todo := if listed || backend.reliable then backend.requests.Keys else {};
    while todo != {}
      invariant todo <= backend.requests.Keys && AllGained(valid, asked, was, backend.metadata) && backend.metadata.Keys == was.Keys
      invariant forall name <- backend.requests :: name in asked && backend.requests[name] == asked[name]
      invariant forall name <- asked :: name in backend.requests || Settled(valid, asked, name, backend.metadata, tpus)
      invariant backend.reliable && (forall n <- tpus :: n in was) ==> forall name <- backend.requests :: IsRequest(name) ==> name in todo
      invariant (forall name <- asked :: Asked(valid, asked, name).Some? ==> Provided(was, tpus, Asked(valid, asked, name).value))
                  ==> backend.metadata == was && backend.writes == old(backend.writes)
    {
      var name :| name in todo;
      todo := todo - {name};
      if IsRequest(name) {
        var content := backend.ReadRequest(name);
        if content.Some? {
          ghost var before := backend.metadata;
          HandleRequest(backend, tpus, valid, asked, name, content.value);
          GainedOn(valid, asked, was, before, backend.metadata);
          GainedKeys(valid, asked, before, backend.metadata);
          SettledStays(valid, asked, before, backend.metadata, tpus);
        }
      }
    }
    forall user, kind, blob | SettledKey(valid, asked, backend.requests, user, kind, blob)
      ensures forall n <- tpus :: n in backend.metadata && Accepts(backend.metadata[n], user, blob)
    {
      SettledFile(valid, asked, backend.requests, user, kind, blob);
      SettledMeans(valid, asked, backend.metadata, tpus, user, kind, blob);
    }
  }

  lemma SettledFile(valid: string -> bool, asked: map<string, string>, left: map<string, string>, user: string, kind: string, blob: string)
    requires SettledKey(valid, asked, left, user, kind, blob)
    ensures user + ".pub" in asked && user + ".pub" !in left && LoginName(user) && KeyFile(valid, user, asked[user + ".pub"], kind, blob)
  {
  }

  /** An acceptable key file of a plain user, now gone. */
  ghost predicate SettledKey(valid: string -> bool, asked: map<string, string>, left: map<string, string>,
                             user: string, kind: string, blob: string)
  {
    user + ".pub" in asked && user + ".pub" !in left && LoginName(user) && KeyFile(valid, user, asked[user + ".pub"], kind, blob)
  }

  lemma SettledMeans(valid: string -> bool, asked: map<string, string>, metadata: map<string, string>, tpus: seq<string>,
                     user: string, kind: string, blob: string)
    requires user + ".pub" in asked && LoginName(user) && KeyFile(valid, user, asked[user + ".pub"], kind, blob)
    requires Settled(valid, asked, user + ".pub", metadata, tpus)
    ensures forall n <- tpus :: n in metadata && Accepts(metadata[n], user, blob)
  {
    hide KeyIdentity, NodeLines, NormalizedKeyEntry, KeyFile, Accepts, Ids;
    var name := user + ".pub";
    assert IsRequest(name) && UserOf(name) == user;
    AcceptedIff(valid, user, asked[name]);
    assert PlainUser(user);
    EntryIdentity(user, kind, blob) by { KeyFileWords(valid, user, asked[name], kind, blob); }
    forall n | n in tpus
      ensures n in metadata && Accepts(metadata[n], user, blob)
    {
      AcceptsIff(metadata[n]);
    }
  }

  /** The body of the loop, for a request that could be read. */
  method HandleRequest(backend: KeyBackend, tpus: seq<string>, valid: string -> bool, ghost asked: map<string, string>, name: string, content: string)
    requires tpus != [] && IsRequest(name) && name in asked && asked[name] == content
    modifies backend`metadata, backend`writes, backend`requests
    ensures AllGained(valid, asked, old(backend.metadata), backend.metadata)
    ensures backend.requests == old(backend.requests) || (backend.requests == old(backend.requests) - {name} && Settled(valid, asked, name, backend.metadata, tpus))
    ensures backend.reliable && (forall n <- tpus :: n in old(backend.metadata)) ==> backend.requests == old(backend.requests) - {name}
    ensures (Asked(valid, asked, name).Some? ==> Provided(old(backend.metadata), tpus, Asked(valid, asked, name).value))
              ==> backend.metadata == old(backend.metadata) && backend.writes == old(backend.writes)
  {
    hide KeyIdentity, NodeLines, NormalizedKeyEntry, AllGained, Provided;
    GainedNothing(valid, asked, backend.metadata);
    var entry := NormalizedKeyEntry(valid, UserOf(name), content);
    if entry.Err? {
      backend.DeleteRequest(name);
      return;
    }
    var everywhere := Provide(backend, tpus, valid, asked, name, entry.value);
    if everywhere {
      backend.DeleteRequest(name);
    }
  }

  /**
   Every line gained comes from a request, and accepts a key of exactly the user that request is named after, unless
   that name ends in a line feed: then, and only then, it accepts no key at all.
   */
  lemma GainedForTheirOwnUser(valid: string -> bool, requests: map<string, string>, l: string)
    requires Requested(valid, requests, l)
    ensures exists user :: user + ".pub" in requests && GainedFor(valid, requests[user + ".pub"], l, user)
  {
    hide KeyIdentity, NodeLines, PlainUser, UserMatches;
    var name :| name in requests && Asked(valid, requests, name).Some? && l in NodeLines(Asked(valid, requests, name).value);
    AcceptedShape(valid, UserOf(name), requests[name]);
    FoundAgainIff(valid, UserOf(name), requests[name]);
    PlainEnd(UserOf(name));
    if PlainUser(UserOf(name)) { PlainEntry(valid, UserOf(name), requests[name]); }
    AcceptedIff(valid, UserOf(name), requests[name]);
    assert UserOf(name) + ".pub" == name;
    assert GainedFor(valid, requests[name], l, UserOf(name));
  }

  /** A line of the entry that a key file is normalised to. */
  ghost predicate GainedFor(valid: string -> bool, text: string, l: string, user: string) {
    && user != ""
    && (exists kind, blob :: KeyFile(valid, user, text, kind, blob) && l in NodeLines(user + ":" + kind + " " + blob + " " + user))
    && (KeyIdentity(l).Some? <==> user[|user| - 1] != '\n') && (KeyIdentity(l).Some? ==> KeyIdentity(l).value.0 == user)
  }

  lemma PlainEnd(user: string)
    requires UserMatches(user)
    ensures user != "" && (PlainUser(user) <==> user[|user| - 1] != '\n')
  {
    if PlainUser(user) { assert UserChar(user[|user| - 1]); }
  }
}
