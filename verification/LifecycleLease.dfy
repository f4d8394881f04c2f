/** Kernel-held lifecycle names: scripts/harness/lifecycle_broker.py.  A lease is a pair
    of abstract socket names, one for the database identity and one for the gateway
    port, in one of three scopes. */
module LifecycleLease {

  datatype Option<T> = None | Some(value: T)
  datatype Scope = Primary | Witness | Runtime

  const SCHEMA := "\0astra.harness.lifecycle.v1"

  predicate Hex64(s: string) {
    |s| == 64 && forall c <- s :: '0' <= c <= '9' || 'a' <= c <= 'f'
  }

  predicate ValidPort(port: int) { 1 <= port <= 65535 }

  function ScopePrefix(scope: Scope): string {
    match scope
    case Primary => ""
    case Witness => ".w"
    case Runtime => ".r"
  }

  function DatabaseTag(scope: Scope): string {
    ScopePrefix(scope) + "." + (if scope.Primary? then "database" else "db") + "."
  }

  function GatewayTag(scope: Scope): string {
    ScopePrefix(scope) + "." + (if scope.Primary? then "gateway" else "gw") + "."
  }

  /** `database_address`, None where it raises. */
  function DatabaseAddress(identity: string, scope: Scope): Option<string> {
    if Hex64(identity) then Some(SCHEMA + DatabaseTag(scope) + identity) else None
  }

  /** `gateway_address` over the hash of a port's canonical record, None where it raises. */
  function GatewayAddress(digest: int -> string, port: int, scope: Scope): Option<string> {
    if ValidPort(port) then Some(SCHEMA + GatewayTag(scope) + digest(port)) else None
  }

  /** SHA-256 on the canonical port records: 64 hex digits, no two alike. */
  ghost predicate PortDigest(digest: int -> string) {
    && (forall p: int :: ValidPort(p) ==> Hex64(digest(p)))
    && (forall p: int, q: int :: ValidPort(p) && ValidPort(q) && digest(p) == digest(q) ==> p == q)
  }

  lemma SameTail(a: string, x: string, b: string, y: string)
    requires a + x == b + y && |x| == |y|
    ensures a == b && x == y
  {
    assert |a + x| == |a| + |x| && |b + y| == |b| + |y|;
    assert a == (a + x)[..|a|] && b == (b + y)[..|b|];
    assert x == (a + x)[|a|..] && y == (b + y)[|b|..];
  }

  lemma TagsDiffer(s: Scope, t: Scope)
    ensures DatabaseTag(s) == DatabaseTag(t) ==> s == t
    ensures GatewayTag(s) == GatewayTag(t) ==> s == t
    ensures DatabaseTag(s) != GatewayTag(t)
  {
    assert DatabaseTag(Primary) == ".database." && DatabaseTag(Witness) == ".w.db." && DatabaseTag(Runtime) == ".r.db.";
    assert GatewayTag(Primary) == ".gateway." && GatewayTag(Witness) == ".w.gw." && GatewayTag(Runtime) == ".r.gw.";
    assert ".w.db."[1] == 'w' && ".r.db."[1] == 'r' && ".w.gw."[1] == 'w' && ".r.gw."[1] == 'r';
    assert ".w.db."[3] == 'd' && ".r.db."[3] == 'd' && ".w.gw."[3] == 'g' && ".r.gw."[3] == 'g';
  }

  /** Different identities, ports, kinds or scopes never share a socket name. */
  lemma AddressesAreInjective(digest: int -> string, i: string, j: string, p: int, q: int, s: Scope, t: Scope)
    requires PortDigest(digest) && Hex64(i) && Hex64(j) && ValidPort(p) && ValidPort(q)
    ensures DatabaseAddress(i, s) == DatabaseAddress(j, t) <==> i == j && s == t
    ensures GatewayAddress(digest, p, s) == GatewayAddress(digest, q, t) <==> p == q && s == t
    ensures DatabaseAddress(i, s) != GatewayAddress(digest, q, t)
  {
    TagsDiffer(s, t);
    if DatabaseAddress(i, s) == DatabaseAddress(j, t) {
      SameTail(SCHEMA + DatabaseTag(s), i, SCHEMA + DatabaseTag(t), j);
      SameFront(SCHEMA, DatabaseTag(s), DatabaseTag(t));
    }
    if GatewayAddress(digest, p, s) == GatewayAddress(digest, q, t) {
      SameTail(SCHEMA + GatewayTag(s), digest(p), SCHEMA + GatewayTag(t), digest(q));
      SameFront(SCHEMA, GatewayTag(s), GatewayTag(t));
    }
    if DatabaseAddress(i, s) == GatewayAddress(digest, q, t) {
      SameTail(SCHEMA + DatabaseTag(s), i, SCHEMA + GatewayTag(t), digest(q));
      SameFront(SCHEMA, DatabaseTag(s), GatewayTag(t));
    }
  }

  lemma SameFront(a: string, x: string, y: string)
    requires a + x == a + y
    ensures x == y
  {
    assert x == (a + x)[|a|..] && y == (a + y)[|a|..];
  }

  // ---- The name table -------------------------------------------------------------------------

  datatype Failure = Busy | Invalid
  datatype Result<T> = Ok(value: T) | Err(failure: Failure)

  /** A bound name and the open description that holds it. */
  datatype Socket = Socket(name: string, description: nat)
  datatype Lease = Lease(database: Socket, gateway: Socket)

  class NameTable {
    const digest: int -> string
    var bound: map<string, nat>
    var next: nat

    ghost predicate Valid()
      reads this
    {
      forall n <- bound :: bound[n] < next
    }

    constructor (digest: int -> string)
      ensures Valid() && this.digest == digest && bound == map[]
    {
      this.digest, bound, next := digest, map[], 0;
    }

    /** `_bind`: a name has at most one open description. */
    method Bind(name: string) returns (r: Result<Socket>)
      requires Valid()
      modifies this`bound, this`next
      ensures Valid()
      ensures r.Ok? <==> name !in old(bound)
      ensures r.Ok? ==> name in bound && r.value == Socket(name, bound[name]) && bound == old(bound)[name := bound[name]] && bound[name] !in old(bound).Values
      ensures r.Err? ==> r.failure == Busy && bound == old(bound)
    {
      if name in bound { return Err(Busy); }
      r := Ok(Socket(name, next));
      bound, next := bound[name := next], next + 1;
    }

    method Close(s: Socket)
      requires Valid()
      modifies this`bound
      ensures Valid() && bound == old(bound) - {s.name}
    {
      bound := bound - {s.name};
    }

    /** `LifecycleLease.acquire`: both names or neither, and no change when refused. */
    method Acquire(identity: string, port: int, scope: Scope) returns (r: Result<Lease>)
      requires Valid()
      modifies this`bound, this`next
      ensures Valid()
      ensures r.Err? ==> bound == old(bound)
      ensures r == Err(Invalid) <==> !Hex64(identity) || !ValidPort(port)
      ensures Hex64(identity) && ValidPort(port) ==>
        var db, gw := DatabaseAddress(identity, scope).value, GatewayAddress(digest, port, scope).value;
        && (r.Ok? <==> db != gw && Names(digest, identity, port, scope) !! old(bound).Keys)
        && (r.Ok? ==> Holds(r.value, db, gw) && bound.Keys == old(bound).Keys + Names(digest, identity, port, scope))
        && (r.Ok? ==> forall n <- old(bound) :: bound[n] == old(bound)[n])
    {
      var db := DatabaseAddress(identity, scope);
      var gw := GatewayAddress(digest, port, scope);
      if db.None? || gw.None? { return Err(Invalid); }
      var first := Bind(db.value);
      if first.Err? { return Err(first.failure); }
      var second := Bind(gw.value);
      if second.Err? {
        Close(first.value);
        assert bound == old(bound);
        return Err(second.failure);
      }
      r := Ok(Lease(first.value, second.value));
    }

    predicate Holds(l: Lease, db: string, gw: string)
      reads this
    {
      && l.database.name == db && l.gateway.name == gw
      && db in bound && gw in bound
      && bound[db] == l.database.description && bound[gw] == l.gateway.description
    }

    method Release(l: Lease)
      requires Valid()
      modifies this`bound
      ensures Valid() && bound == old(bound) - {l.database.name, l.gateway.name}
    {
      Close(l.gateway);
      Close(l.database);
      assert bound == old(bound) - {l.database.name, l.gateway.name};
    }

    /** The recovery authority of `recover_stale_domains`: the witness, primary and runtime
        leases in this order, giving back what was taken as soon as one is refused. */
    method AcquireAll(identity: string, port: int) returns (r: Result<(Lease, Lease, Lease)>)
      requires Valid() && PortDigest(digest)
      modifies this`bound, this`next
      ensures Valid()
      ensures r.Err? ==> bound == old(bound)
      ensures r == Err(Invalid) <==> !Hex64(identity) || !ValidPort(port)
      ensures Hex64(identity) && ValidPort(port) ==>
        && (r.Ok? <==> AllNames(digest, identity, port) !! old(bound).Keys)
        && (r.Ok? ==> bound.Keys == old(bound).Keys + AllNames(digest, identity, port))
    {
      if Hex64(identity) && ValidPort(port) { NamesDisjoint(digest, identity, port); }
      var outer := Acquire(identity, port, Witness);
      if outer.Err? { return Err(outer.failure); }
      ghost var before, taken := bound, Names(digest, identity, port, Witness);
      var primary := Acquire(identity, port, Primary);
      if primary.Err? {
        StillBusy(old(bound).Keys, taken, Names(digest, identity, port, Primary));
        Release(outer.value);
        Restored(old(bound), bound, before, outer.value);
        return Err(primary.failure);
      }
      ghost var middle := bound;
      taken := taken + Names(digest, identity, port, Primary);
      var runtime := Acquire(identity, port, Runtime);
      if runtime.Err? {
        StillBusy(old(bound).Keys, taken, Names(digest, identity, port, Runtime));
        Release(primary.value);
        Restored(before, bound, middle, primary.value);
        Release(outer.value);
        Restored(old(bound), bound, before, outer.value);
        return Err(runtime.failure);
      }
      r := Ok((outer.value, primary.value, runtime.value));
    }
  }

  lemma StillBusy(keys: set<string>, taken: set<string>, names: set<string>)
    requires names !! taken && !(names !! keys + taken)
    ensures !(names !! keys)
  {
    var n :| n in names && n in keys + taken;
  }

  function Names(digest: int -> string, identity: string, port: int, scope: Scope): set<string>
    requires Hex64(identity) && ValidPort(port)
  {
    {DatabaseAddress(identity, scope).value, GatewayAddress(digest, port, scope).value}
  }

  function AllNames(digest: int -> string, identity: string, port: int): set<string>
    requires Hex64(identity) && ValidPort(port)
  {
    Names(digest, identity, port, Witness) + Names(digest, identity, port, Primary) + Names(digest, identity, port, Runtime)
  }

  lemma NamesDisjoint(digest: int -> string, identity: string, port: int)
    requires PortDigest(digest) && Hex64(identity) && ValidPort(port)
    ensures Names(digest, identity, port, Witness) !! Names(digest, identity, port, Primary) !! Names(digest, identity, port, Runtime)
    ensures forall s: Scope :: DatabaseAddress(identity, s) != GatewayAddress(digest, port, s)
  {
    AddressesAreInjective(digest, identity, identity, port, port, Witness, Primary);
    AddressesAreInjective(digest, identity, identity, port, port, Witness, Runtime);
    AddressesAreInjective(digest, identity, identity, port, port, Primary, Runtime);
    AddressesAreInjective(digest, identity, identity, port, port, Primary, Witness);
    AddressesAreInjective(digest, identity, identity, port, port, Runtime, Witness);
    AddressesAreInjective(digest, identity, identity, port, port, Runtime, Primary);
    forall s: Scope ensures DatabaseAddress(identity, s) != GatewayAddress(digest, port, s) {
      AddressesAreInjective(digest, identity, identity, port, port, s, s);
    }
  }

  lemma Restored(before: map<string, nat>, after: map<string, nat>, during: map<string, nat>, l: Lease)
    requires during.Keys == before.Keys + {l.database.name, l.gateway.name}
    requires l.database.name !in before && l.gateway.name !in before
    requires forall n <- before :: during[n] == before[n]
    requires after == during - {l.database.name, l.gateway.name}
    ensures after == before
  {}
}
