/** Call ids (call.go): each side of a session allocates ids of one parity by probing
    upwards in wrapping 32-bit arithmetic. */
module CallIds {
  import opened Basics

  datatype Role = Client | Server {

    /** Which ids this side allocates: a client the even ones, a server the odd ones. */
    predicate Allocates(call: u32) {
      if Client? then call % 2 == 0 else call % 2 != 0
    }
  }

  /** How many ids one parity has, and how often `Allocate` probes before it gives up. */
  const PARITY_IDS: nat := 0x8000_0000

  /** The id probed k steps after `next`, wrapping at 2^32. */
  function Nth(next: u32, k: nat): u32 {
    ((next as int + 2 * k) % U32_SPAN) as u32
  }

  datatype Search = Search(found: Option<u32>, next: u32, probes: nat)

  /** `Allocate` as a value: probe at most `left` more ids from `next`. */
  function Probe(next: u32, taken: set<u32>, left: nat): Search
    decreases left
  {
    if left == 0 then Search(None, next, 0)
    else if next !in taken then Search(Some(next), Nth(next, 1), 1)
    else
      var rest := Probe(Nth(next, 1), taken, left - 1);
      rest.(probes := rest.probes + 1)
  }

  function Allocation(next: u32, taken: set<u32>): Search { Probe(next, taken, PARITY_IDS) }

  class CallIDAllocator {
    const role: Role
    var next: u32

    ghost predicate Valid()
      reads this
    {
      role.Allocates(next)
    }

    constructor (role: Role)
      ensures this.role == role && Valid()
      ensures next == if role.Server? then 1 else 0
    {
      this.role := role;
      next := if role.Server? then 1 else 0;
    }

    /** `Allocate`: at most 2^31 probes, each advancing `next` by two, find a free id of the
        own parity or show that there is none. */
    method Allocate(taken: set<u32>) returns (call: Option<u32>)
      requires Valid()
      modifies this
      ensures Valid()
      ensures call == Allocation(old(next), taken).found
      ensures next == Allocation(old(next), taken).next
      ensures call.Some? ==> role.Allocates(call.value) && call.value !in taken
      ensures call.None? <==> forall id: u32 :: role.Allocates(id) ==> id in taken
    {
      AllocateComplete(role, next, taken);
      var attempt := 0;
      while attempt < PARITY_IDS
        invariant 0 <= attempt <= PARITY_IDS
        invariant Allocation(old(next), taken).found == Probe(next, taken, PARITY_IDS - attempt).found
        invariant Allocation(old(next), taken).next == Probe(next, taken, PARITY_IDS - attempt).next
      {
        var candidate := next;
        next := Nth(next, 1);
        if candidate !in taken {
          return Some(candidate);
        }
        attempt := attempt + 1;
      }
      call := None;
    }
  }

  lemma NthOfNth(next: u32, k: nat)
    ensures Nth(Nth(next, 1), k) == Nth(next, k + 1)
    ensures Nth(next, k) % 2 == next % 2
  {
    var a := next as int + 2;
    assert a % U32_SPAN == if a < U32_SPAN then a else a - U32_SPAN;
    WrapOnce(a + 2 * k);
    WrapParity(next as int + 2 * k);
  }

  lemma WrapOnce(x: nat)
    ensures x >= U32_SPAN ==> (x - U32_SPAN) % U32_SPAN == x % U32_SPAN
  {
  }

  lemma WrapParity(x: nat)
    ensures x % U32_SPAN % 2 == x % 2
  {
    assert x == U32_SPAN * (x / U32_SPAN) + x % U32_SPAN;
    assert x == 2 * (0x8000_0000 * (x / U32_SPAN)) + x % U32_SPAN;
  }

  /** The probe visits ids in order and stops at the first free one. */
  lemma {:induction false} ProbeFindsFirst(next: u32, taken: set<u32>, left: nat)
    ensures var r := Probe(next, taken, left);
            && r.probes <= left
            && r.next == Nth(next, r.probes)
            && (r.found.Some? ==> r.probes > 0 && r.found.value == Nth(next, r.probes - 1) && r.found.value !in taken)
            && (r.found.None? ==> r.probes == left)
    ensures forall j :: 0 <= j < Probe(next, taken, left).probes - 1 ==> Nth(next, j) in taken
    ensures Probe(next, taken, left).found.None? ==> forall j :: 0 <= j < left ==> Nth(next, j) in taken
    decreases left
  {
    assert Nth(next, 0) == next;
    if left > 0 && next in taken {
      ProbeFindsFirst(Nth(next, 1), taken, left - 1);
      var r := Probe(Nth(next, 1), taken, left - 1);
      NthOfNth(next, r.probes);
      if r.probes > 0 {
        NthOfNth(next, r.probes - 1);
      }
      assert forall j :: 0 < j < left && r.found.None? ==> Nth(next, j) in taken by {
        forall j | 0 < j < left && r.found.None?
          ensures Nth(next, j) in taken
        {
          NthOfNth(next, j - 1);
        }
      }
      assert forall j :: 0 <= j < r.probes ==> Nth(next, j) in taken by {
        forall j | 0 <= j < r.probes
          ensures Nth(next, j) in taken
        {
          if j > 0 {
            NthOfNth(next, j - 1);
          }
        }
      }
    }
  }

  /** Distinct probes meet distinct ids for a whole turn of the parity. */
  lemma NthInjective(next: u32, i: nat, j: nat)
    requires i < j < PARITY_IDS
    ensures Nth(next, i) != Nth(next, j)
  {
    var a, b := next as int + 2 * i, next as int + 2 * j;
    assert a == U32_SPAN * (a / U32_SPAN) + a % U32_SPAN;
    assert b == U32_SPAN * (b / U32_SPAN) + b % U32_SPAN;
    assert 0 < b - a < U32_SPAN;
  }

  /** Every id of the parity is met within one turn. */
  lemma NthCovers(next: u32, id: u32) returns (k: nat)
    requires id % 2 == next % 2
    ensures k < PARITY_IDS && Nth(next, k) == id
  {
    var gap := id as int - next as int;
    k := if gap >= 0 then gap / 2 else (gap + U32_SPAN) / 2;
  }

  function Probed(next: u32, k: nat): set<u32> {
    if k == 0 then {} else Probed(next, k - 1) + {Nth(next, k - 1)}
  }

  lemma {:induction false} ProbedSize(next: u32, k: nat)
    requires k <= PARITY_IDS
    ensures |Probed(next, k)| == k
    ensures forall x :: x in Probed(next, k) ==> exists j :: 0 <= j < k && x == Nth(next, j)
  {
    if k > 0 {
      ProbedSize(next, k - 1);
      if Nth(next, k - 1) in Probed(next, k - 1) {
        var j :| 0 <= j < k - 1 && Nth(next, k - 1) == Nth(next, j);
        NthInjective(next, j, k - 1);
      }
    }
  }

  /** k ids in a row that are all taken need k taken ids. */
  lemma RunIsTaken(next: u32, taken: set<u32>, k: nat)
    requires k <= PARITY_IDS && forall j :: 0 <= j < k ==> Nth(next, j) in taken
    ensures k <= |taken|
  {
    ProbedSize(next, k);
    assert Probed(next, k) <= taken;
    SubsetSize(Probed(next, k), taken);
  }

  lemma {:induction false} SubsetSize(a: set<u32>, b: set<u32>)
    requires a <= b
    ensures |a| <= |b|
  {
    if a != {} {
      var x :| x in a;
      SubsetSize(a - {x}, b - {x});
    }
  }

  /** The allocator is complete: through wrap-around it returns a free id of its own
      parity within |taken| + 1 probes, and it gives up exactly when every one of the
      2^31 ids of that parity is taken. */
  lemma AllocateComplete(role: Role, next: u32, taken: set<u32>)
    requires role.Allocates(next)
    ensures var r := Allocation(next, taken);
            && role.Allocates(r.next)
            && (r.found.Some? ==> r.found.value !in taken && role.Allocates(r.found.value) && r.probes <= |taken| + 1)
            && (r.found.None? <==> forall id: u32 :: role.Allocates(id) ==> id in taken)
  {
    var r := Allocation(next, taken);
    ProbeFindsFirst(next, taken, PARITY_IDS);
    NthOfNth(next, r.probes);
    if r.found.Some? {
      NthOfNth(next, r.probes - 1);
      RunIsTaken(next, taken, r.probes - 1);
    } else {
      forall id: u32 | role.Allocates(id)
        ensures id in taken
      {
        var k := NthCovers(next, id);
      }
    }
  }
}
