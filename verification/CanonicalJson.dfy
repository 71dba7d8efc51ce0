/** The canonical form that idempotency compares (cmd/internal/pkg/idempotency/hash.go), over decoded value
    trees. */
module CanonicalJson {
  import opened Outcome

  /** Numbers keep the literal that was received. */
  datatype Json =
    | Null
    | Bool(value: bool)
    | Number(literal: string)
    | Str(text: string)
    | Array(items: seq<Json>)
    | Object(members: map<string, Json>)

  const TRANSPORT_FIELDS := {
    "idempotencykey", "messageid", "messagegroupid", "messagededuplicationid", "sequencenumber", "receipthandle",
    "type", "occurredat", "sentat", "timestamp", "requestid", "correlationid", "traceid"}

  /** strings.ToLower, on the characters whose lower case is an ASCII letter; others cannot occur in a
      transport name either way. */
  function Lower(c: char): char {
    if 'A' <= c <= 'Z' then 'a' + (c - 'A') else if c == '\U{212A}' then 'k' else if c == '\U{130}' then 'i' else c
  }

  function ToLower(s: string): string {
    seq(|s|, i requires 0 <= i < |s| => Lower(s[i]))
  }

  predicate IsTransportField(key: string) {
    ToLower(key) in TRANSPORT_FIELDS
  }

  // ---- The form ----

  /** A member that reaches the hash. */
  predicate Kept(members: map<string, Json>, key: string, top: bool) {
    key in members && members[key] != Null && !(top && IsTransportField(key))
  }

  /** canonicalObject; top is true only for the outermost object. */
  function CanonicalMembers(o: Json, top: bool): map<string, Json>
    requires o.Object?
    decreases o, 0
  {
    map key | key in o.members && Kept(o.members, key, top) :: Canonical(o.members[key])
  }

  function Canonical(v: Json): Json
    decreases v, 1
  {
    match v
    case Object(_) => Object(CanonicalMembers(v, false))
    case Array(items) => Array(seq(|items|, i requires 0 <= i < |items| => Canonical(items[i])))
    case _ => v
  }

  // ---- The code ----

  method CanonicalObject(o: Json, top: bool) returns (canonical: map<string, Json>)
    requires o.Object?
    ensures canonical == CanonicalMembers(o, top)
    decreases o, 0
  {
    canonical := map[];
    var keys := o.members.Keys;
    while keys != {}
      invariant keys <= o.members.Keys
      invariant canonical == map key | key in o.members && key !in keys && Kept(o.members, key, top) ::
        Canonical(o.members[key])
      decreases keys
    {
      var key :| key in keys;
      keys := keys - {key};
      if o.members[key] == Null || (top && IsTransportField(key)) {
        continue;
      }
      var value := CanonicalValue(o.members[key]);
      canonical := canonical[key := value];
    }
  }

  method CanonicalValue(value: Json) returns (canonical: Json)
    ensures canonical == Canonical(value)
    decreases value, 1
  {
    match value {
      case Object(_) =>
        var members := CanonicalObject(value, false);
        canonical := Object(members);
      case Array(items) =>
        var done := [];
        for i := 0 to |items|
          invariant done == seq(i, j requires 0 <= j < i => Canonical(items[j]))
        {
          var item := CanonicalValue(items[i]);
          done := done + [item];
        }
        canonical := Array(done);
      case _ => canonical := value;
    }
  }

  // ---- When two payloads are the same operation ----

  /** The same value, but for null members. Array items count where they stand, nulls included. */
  ghost predicate Same(x: Json, y: Json)
    decreases x, 1
  {
    match (x, y)
    case (Object(_), Object(_)) => SameMembers(x, y, false)
    case (Array(xs), Array(ys)) => |xs| == |ys| && forall i | 0 <= i < |xs| :: Same(xs[i], ys[i])
    case _ => x == y
  }

  /** The same members, but for null members and, at the top, transport fields. */
  ghost predicate SameMembers(x: Json, y: Json, top: bool)
    requires x.Object? && y.Object?
    decreases x, 0
  {
    && (forall key :: Kept(x.members, key, top) <==> Kept(y.members, key, top))
    && (forall key | key in x.members && Kept(x.members, key, top) :: Same(x.members[key], y.members[key]))
  }

  lemma {:induction false} CanonicalIffSame(x: Json, y: Json)
    ensures Canonical(x) == Canonical(y) <==> Same(x, y)
    decreases x, 1
  {
    match (x, y)
    case (Object(_), Object(_)) => MembersIffSame(x, y, false);
    case (Array(xs), Array(ys)) =>
      forall i | 0 <= i < |xs| && i < |ys| ensures Canonical(xs[i]) == Canonical(ys[i]) <==> Same(xs[i], ys[i]) {
        CanonicalIffSame(xs[i], ys[i]);
      }
      assert forall i | 0 <= i < |xs| :: Canonical(x).items[i] == Canonical(xs[i]);
      assert forall i | 0 <= i < |ys| :: Canonical(y).items[i] == Canonical(ys[i]);
    case _ =>
  }

  lemma {:induction false} MembersIffSame(x: Json, y: Json, top: bool)
    requires x.Object? && y.Object?
    ensures CanonicalMembers(x, top) == CanonicalMembers(y, top) <==> SameMembers(x, y, top)
    decreases x, 0
  {
    var xs, ys := CanonicalMembers(x, top), CanonicalMembers(y, top);
    forall key | key in xs && key in ys ensures xs[key] == ys[key] <==> Same(x.members[key], y.members[key]) {
      CanonicalIffSame(x.members[key], y.members[key]);
    }
    assert forall key :: Kept(x.members, key, top) <==> key in xs;
    assert forall key :: Kept(y.members, key, top) <==> key in ys;
  }

  lemma {:induction false} CanonicalIsIdempotent(v: Json)
    ensures Canonical(Canonical(v)) == Canonical(v) && (v == Null <==> Canonical(v) == Null)
    decreases v, 1
  {
    match v
    case Object(_) => MembersAreIdempotent(v, false);
    case Array(items) =>
      forall i | 0 <= i < |items| ensures Canonical(Canonical(items[i])) == Canonical(items[i]) {
        CanonicalIsIdempotent(items[i]);
      }
      assert Canonical(Canonical(v)).items == Canonical(v).items;
    case _ =>
  }

  /** Canonicalising twice changes nothing. */
  lemma {:induction false} MembersAreIdempotent(o: Json, top: bool)
    requires o.Object?
    ensures CanonicalMembers(Object(CanonicalMembers(o, top)), top) == CanonicalMembers(o, top)
    decreases o, 0
  {
    forall key | key in o.members
      ensures Canonical(Canonical(o.members[key])) == Canonical(o.members[key])
      ensures (o.members[key] == Null <==> Canonical(o.members[key]) == Null)
    {
      CanonicalIsIdempotent(o.members[key]);
    }
  }
}
