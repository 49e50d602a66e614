/** The schema handshake (examples/demo/generated/handshake.go), over any table sorted by
    id: section 9.1 of Fomoxa RFC-0002 lets two peers talk when, for every message both
    declare, the shorter field list is a prefix of the longer one. A field is an abstract
    description; `Digest` is the fingerprint of a field list under a message id. */
module Handshake {
  import opened Basics

  newtype u64 = x: int | 0 <= x < 0x1_0000_0000_0000_0000

  type Field = Bytes

  type Digest = (u32, seq<Field>) -> u64

  datatype Message = Message(id: u32, fingerprint: u64, prefixes: seq<u64>)

  /** An entry of a peer's table. */
  datatype PeerMessage = PeerMessage(id: u32, fieldCount: nat, fingerprint: u64)

  datatype Check = Match | Reject | NeedPrefix(fieldCount: nat)

  datatype Verdict = Current | Outdated | Refused | NeedMore

  ghost predicate Sorted(table: seq<Message>) {
    forall i, j :: 0 <= i < j < |table| ==> table[i].id < table[j].id
  }

  /** Looking a message up by walking the table. */
  function Find(table: seq<Message>, id: u32): Option<Message> {
    if table == [] then None else if table[0].id == id then Some(table[0]) else Find(table[1..], id)
  }

  lemma {:induction false} FindMeans(table: seq<Message>, id: u32)
    ensures match Find(table, id)
            case None => forall m :: m in table ==> m.id != id
            case Some(m) => m in table && m.id == id
  {
    if table != [] {
      FindMeans(table[1..], id);
    }
  }

  /** In a sorted table every message is found under its id. */
  lemma {:induction false} FindAt(table: seq<Message>, i: nat)
    requires Sorted(table) && i < |table|
    ensures Find(table, table[i].id) == Some(table[i])
  {
    if i > 0 {
      FindAt(table[1..], i - 1);
    }
  }

  /** `FomoxaMessageByID`: binary search finds what walking the table finds. */
  method MessageByID(table: seq<Message>, id: u32) returns (r: Option<Message>)
    requires Sorted(table)
    ensures r == Find(table, id)
  {
    var low, high := 0, |table|;
    while low < high
      invariant 0 <= low <= high <= |table|
      invariant forall i :: 0 <= i < low ==> table[i].id < id
      invariant forall i :: high <= i < |table| ==> id <= table[i].id
    {
      var middle := (low + high) / 2;
      if table[middle].id < id {
        low := middle + 1;
      } else {
        high := middle;
      }
    }
    if low < |table| && table[low].id == id {
      FindAt(table, low);
      return Some(table[low]);
    }
    FindMeans(table, id);
    r := None;
  }

  /** `FomoxaPrefix`. */
  function Prefix(table: seq<Message>, id: u32, fieldCount: nat): Option<u64> {
    match Find(table, id)
    case None => None
    case Some(m) => if fieldCount == 0 || fieldCount > |m.prefixes| then None else Some(m.prefixes[fieldCount - 1])
  }

  /** `FomoxaCheckMessage`. */
  function CheckMessage(table: seq<Message>, peer: PeerMessage): Check {
    match Find(table, peer.id)
    case None => Match
    case Some(known) =>
      var local := |known.prefixes|;
      if peer.fingerprint == known.fingerprint then Match
      else if peer.fieldCount == 0 || local == 0 then Match
      else if peer.fieldCount == local then Reject
      else if peer.fieldCount < local then
        if known.prefixes[peer.fieldCount - 1] == peer.fingerprint then Match else Reject
      else NeedPrefix(local)
  }

  /** What a message says about itself in its peer's table. */
  function Shown(m: Message): PeerMessage { PeerMessage(m.id, |m.prefixes|, m.fingerprint) }

  /** The verdict on one message of the peer, after the extra round if it takes one: the
      peer is asked for its prefix, and the reply is compared with the own one. */
  function Resolve(table: seq<Message>, peerTable: seq<Message>, m: Message): bool {
    match CheckMessage(table, Shown(m))
    case Match => true
    case Reject => false
    case NeedPrefix(n) => Prefix(peerTable, m.id, n) == Prefix(table, m.id, n)
  }

  /** The message publishes the fingerprints of these fields. */
  ghost predicate Publishes(digest: Digest, m: Message, fields: seq<Field>) {
    && |m.prefixes| == |fields|
    && m.fingerprint == digest(m.id, fields)
    && forall k :: 0 <= k < |fields| ==> m.prefixes[k] == digest(m.id, fields[..k + 1])
  }

  predicate IsPrefix(a: seq<Field>, b: seq<Field>) { |a| <= |b| && a == b[..|a|] }

  predicate Compatible(a: seq<Field>, b: seq<Field>) { IsPrefix(a, b) || IsPrefix(b, a) }

  /** No two of the prefixes in play share a fingerprint. */
  ghost predicate NoCollision(digest: Digest, id: u32, a: seq<Field>, b: seq<Field>) {
    forall i, j :: 0 <= i <= |a| && 0 <= j <= |b| && digest(id, a[..i]) == digest(id, b[..j]) ==> a[..i] == b[..j]
  }

  lemma Whole(a: seq<Field>)
    ensures a[..|a|] == a
  {
  }

  /** The prefix test decides exactly compatibility: the verdict on a message both declare
      is favourable if and only if one field list is a prefix of the other. */
  lemma PrefixTest(digest: Digest, table: seq<Message>, peerTable: seq<Message>, own: Message, theirs: Message,
                   a: seq<Field>, b: seq<Field>)
    requires Find(table, own.id) == Some(own) && Find(peerTable, theirs.id) == Some(theirs) && own.id == theirs.id
    requires Publishes(digest, own, a) && Publishes(digest, theirs, b) && NoCollision(digest, own.id, a, b)
    ensures Resolve(table, peerTable, theirs) <==> Compatible(a, b)
  {
    Whole(a);
    Whole(b);
    assert own.fingerprint == theirs.fingerprint ==> digest(own.id, a[..|a|]) == digest(own.id, b[..|b|]);
    if 0 < |b| < |a| {
      assert own.prefixes[|b| - 1] == digest(own.id, a[..|b|]);
      assert own.prefixes[|b| - 1] == theirs.fingerprint ==> a[..|b|] == b[..|b|];
    } else if 0 < |a| < |b| {
      assert theirs.prefixes[|a| - 1] == digest(own.id, b[..|a|]);
      assert own.prefixes[|a| - 1] == digest(own.id, a[..|a|]);
    }
  }

  /** A message one side does not declare is never held against the other. */
  lemma UnknownMatches(table: seq<Message>, peerTable: seq<Message>, m: Message)
    requires Find(table, m.id).None?
    ensures Resolve(table, peerTable, m)
  {
  }

  // ------------------------------------------------------------------ whole tables

  /** `FomoxaHandshakeCompare`: one refusal decides, otherwise one open question does. */
  method HandshakeCompare(table: seq<Message>, schemaFingerprint: u64, peerSchemaFingerprint: u64,
                          peerMessages: seq<PeerMessage>) returns (v: Verdict)
    ensures v == Compared(table, schemaFingerprint == peerSchemaFingerprint, set m | m in peerMessages)
  {
    if peerSchemaFingerprint == schemaFingerprint {
      return Current;
    }
    var needMore := false;
    var i := 0;
    while i < |peerMessages|
      invariant i <= |peerMessages|
      invariant forall j :: 0 <= j < i ==> CheckMessage(table, peerMessages[j]) != Reject
      invariant needMore <==> exists j :: 0 <= j < i && CheckMessage(table, peerMessages[j]).NeedPrefix?
    {
      match CheckMessage(table, peerMessages[i]) {
        case Reject =>
          assert peerMessages[i] in peerMessages;
          return Refused;
        case NeedPrefix(_) => needMore := true;
        case Match =>
      }
      i := i + 1;
    }
    if needMore {
      return NeedMore;
    }
    return Outdated;
  }

  /** The verdict on a table as the set of its entries: their order cannot matter. */
  ghost function Compared(table: seq<Message>, same: bool, peer: set<PeerMessage>): Verdict {
    if same then Current
    else if exists m :: m in peer && CheckMessage(table, m) == Reject then Refused
    else if exists m :: m in peer && CheckMessage(table, m).NeedPrefix? then NeedMore
    else Outdated
  }

  /** A schema: a sorted table with the fields behind every message. */
  ghost predicate Published(digest: Digest, table: seq<Message>, fields: map<u32, seq<Field>>) {
    && Sorted(table)
    && (forall m :: m in table ==> m.id in fields && Publishes(digest, m, fields[m.id]))
    && (forall id :: id in fields ==> Find(table, id).Some?)
  }

  /** Every message of the peer is accepted, the extra round included. */
  ghost predicate Accepts(table: seq<Message>, peerTable: seq<Message>) {
    forall m :: m in peerTable ==> Resolve(table, peerTable, m)
  }

  /** What a peer shows of its table. */
  ghost function Entries(peerTable: seq<Message>): set<PeerMessage> { set m | m in peerTable :: Shown(m) }

  /** How the whole handshake ends: the verdict, and where that leaves a question open, the
      extra round for every message that needs it. */
  ghost predicate Concluded(table: seq<Message>, peerTable: seq<Message>, same: bool) {
    match Compared(table, same, Entries(peerTable))
    case Current => true
    case Outdated => true
    case Refused => false
    case NeedMore =>
      forall m :: m in peerTable ==>
        var check := CheckMessage(table, Shown(m));
        check.NeedPrefix? ==> Prefix(peerTable, m.id, check.fieldCount) == Prefix(table, m.id, check.fieldCount)
  }

  /** What the verdict of `HandshakeCompare` is worth when the schema fingerprints differ:
      a refusal means that some message is unacceptable, an outdated schema that none is,
      and otherwise the extra round decides. */
  lemma VerdictMeans(table: seq<Message>, peerTable: seq<Message>)
    ensures Compared(table, false, Entries(peerTable)) == Refused ==> !Accepts(table, peerTable)
    ensures Compared(table, false, Entries(peerTable)) == Outdated ==> Accepts(table, peerTable)
    ensures Concluded(table, peerTable, false) <==> Accepts(table, peerTable)
  {
    hide CheckMessage, Prefix;
    forall m | m in peerTable
      ensures Shown(m) in Entries(peerTable) && Shown(m).id == m.id
    {
    }
  }

  /** What it is worth when they are equal: that the peers show equal entries must be
      assumed, as the fingerprint of a schema is meant to tell. */
  lemma CurrentMeans(table: seq<Message>, peerTable: seq<Message>)
    requires Sorted(table) && Entries(table) == Entries(peerTable)
    ensures Concluded(table, peerTable, true) && Accepts(table, peerTable)
  {
    forall m | m in peerTable
      ensures Resolve(table, peerTable, m)
    {
      assert Shown(m) in Entries(table);
      var own :| own in table && Shown(own) == Shown(m);
      var i :| 0 <= i < |table| && table[i] == own;
      FindAt(table, i);
    }
  }

  ghost predicate FingerprintsApart(digest: Digest, a: map<u32, seq<Field>>, b: map<u32, seq<Field>>) {
    forall id :: id in a && id in b ==> NoCollision(digest, id, a[id], b[id]) && NoCollision(digest, id, b[id], a[id])
  }

  /** A handshake succeeds exactly when every message both sides declare is compatible. */
  lemma AcceptsExactly(digest: Digest, table: seq<Message>, peerTable: seq<Message>,
                       a: map<u32, seq<Field>>, b: map<u32, seq<Field>>)
    requires Published(digest, table, a) && Published(digest, peerTable, b) && FingerprintsApart(digest, a, b)
    ensures Accepts(table, peerTable) <==> forall id :: id in a && id in b ==> Compatible(a[id], b[id])
  {
    forall m | m in peerTable
      ensures Resolve(table, peerTable, m) <==> (m.id in a ==> Compatible(a[m.id], b[m.id]))
    {
      var i :| 0 <= i < |peerTable| && peerTable[i] == m;
      FindAt(peerTable, i);
      FindMeans(table, m.id);
      if m.id in a {
        PrefixTest(digest, table, peerTable, Find(table, m.id).value, m, a[m.id], b[m.id]);
      } else {
        UnknownMatches(table, peerTable, m);
      }
    }
    forall id | id in a && id in b
      ensures exists m :: m in peerTable && m.id == id
    {
      FindMeans(peerTable, id);
    }
  }

  /** The schema fingerprint tells schemas apart. */
  ghost predicate Told(table: seq<Message>, peerTable: seq<Message>, same: bool) {
    same ==> Entries(table) == Entries(peerTable)
  }

  /** So the handshake, by the verdict and the extra round, succeeds exactly then, */
  lemma ConcludedExactly(digest: Digest, table: seq<Message>, peerTable: seq<Message>, same: bool,
                         a: map<u32, seq<Field>>, b: map<u32, seq<Field>>)
    requires Published(digest, table, a) && Published(digest, peerTable, b) && FingerprintsApart(digest, a, b)
    requires Told(table, peerTable, same)
    ensures Concluded(table, peerTable, same) <==> forall id :: id in a && id in b ==> Compatible(a[id], b[id])
  {
    hide Compared, Resolve, NoCollision;
    AcceptsExactly(digest, table, peerTable, a, b);
    if same {
      CurrentMeans(table, peerTable);
    } else {
      VerdictMeans(table, peerTable);
    }
  }

  /** and both peers come to the same end. */
  lemma BothAgree(digest: Digest, table: seq<Message>, peerTable: seq<Message>, same: bool,
                  a: map<u32, seq<Field>>, b: map<u32, seq<Field>>)
    requires Published(digest, table, a) && Published(digest, peerTable, b)
    requires FingerprintsApart(digest, a, b) && Told(table, peerTable, same)
    ensures Accepts(table, peerTable) <==> Accepts(peerTable, table)
    ensures Concluded(table, peerTable, same) <==> Concluded(peerTable, table, same)
  {
    hide Compared, Resolve, Publishes, NoCollision, Concluded;
    AcceptsExactly(digest, table, peerTable, a, b);
    AcceptsExactly(digest, peerTable, table, b, a);
    ConcludedExactly(digest, table, peerTable, same, a, b);
    ConcludedExactly(digest, peerTable, table, same, b, a);
    assert forall id :: id in a && id in b ==> (Compatible(a[id], b[id]) <==> Compatible(b[id], a[id]));
  }
}
