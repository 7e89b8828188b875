/** Types shared by the reactor models: operation ids and kinds, socket errors,
    the table of claimed operations, and the one-slot completion signal. */
module Core {

  datatype Option<+T> = None | Some(value: T)

  type u8 = x: int | 0 <= x < 0x100

  type OpId = nat
  type Handle = nat

  // The identity of a heap object of the Go program.  Serials are handed out in
  // increasing order, so comparing serials is comparing pointers.
  type Serial = nat

  datatype Kind = Read | Write | UdpRead | UdpWrite | Create | Accept | Dns | Environment | PacketWrite | Management

  // What a socket call reports.
  datatype IoError = EOF | NetClosed | ShortWrite | Foreign(code: nat)

  // What a reactor call reports.
  datatype CallError = Invalid | Pending | WouldBlock

  /** The part of the reactor every file shares.  `token` is the one-slot
      completion channel; `owes` counts the threads that have left the mutex and
      have yet to signal it. */
  datatype Base = Base(closed: bool, operations: map<OpId, Kind>, token: bool, owes: nat)

  const Fresh := Base(false, map[], false, 0)

  function Claim(b: Base, id: OpId, kind: Kind): Option<Base> {
    if b.closed || id in b.operations then None
    else Some(b.(operations := b.operations[id := kind]))
  }

  function Holds(b: Base, id: OpId, kind: Kind): bool {
    id in b.operations && b.operations[id] == kind
  }

  function Release(b: Base, id: OpId, kind: Kind): Base {
    if Holds(b, id, kind) then b.(operations := b.operations - {id}) else b
  }

  function Owe(b: Base, signal: bool): Base {
    if signal then b.(owes := b.owes + 1) else b
  }

  // signalCompletion: a non-blocking send, which coalesces with a token already there.
  function Pay(b: Base): Base {
    if b.owes > 0 then b.(owes := b.owes - 1, token := true) else b
  }

  /** One of several operations that wait on a handle and are woken together. */
  datatype Waiter = Waiter(handle: Handle, ready: bool)

  function Wake(waiters: map<OpId, Waiter>, handle: Handle): map<OpId, Waiter> {
    map op | op in waiters :: if waiters[op].handle == handle then waiters[op].(ready := true) else waiters[op]
  }

  predicate Signalled(b: Base) {
    b.token || b.owes > 0
  }

  // Two operation tables agree on every id of the given kind.
  ghost predicate SameKind(kind: Kind, a: map<OpId, Kind>, b: map<OpId, Kind>) {
    && (forall id | id in a && a[id] == kind :: id in b && b[id] == kind)
    && (forall id | id in b && b[id] == kind :: id in a && a[id] == kind)
  }

  // What the rest of the reactor may do between two steps of one component: claim
  // and release ids of other kinds, and promise more signals.
  ghost function Interfere(kind: Kind, b: Base, operations: map<OpId, Kind>, promised: nat): Base {
    if SameKind(kind, b.operations, operations) && !b.closed
    then b.(operations := operations, owes := b.owes + promised)
    else b.(owes := b.owes + promised)
  }
}

/** Sequences without repetition and the removal of one element. */
module Queues {

  function RemoveFirst<T(==)>(q: seq<T>, x: T): seq<T> {
    if q == [] then []
    else if q[0] == x then q[1..]
    else [q[0]] + RemoveFirst(q[1..], x)
  }

  lemma {:induction false} RemoveFirstAt<T>(q: seq<T>, i: nat)
    requires i < |q|
    requires forall j | 0 <= j < i :: q[j] != q[i]
    ensures RemoveFirst(q, q[i]) == q[..i] + q[i + 1..]
  {
    if i > 0 {
      RemoveFirstAt(q[1..], i - 1);
      assert q[1..][..i - 1] == q[1..i] && q[1..][i..] == q[i + 1..];
      assert [q[0]] + q[1..i] == q[..i];
    }
  }

  lemma {:induction false} RemoveFirstAbsent<T>(q: seq<T>, x: T)
    requires x !in q
    ensures RemoveFirst(q, x) == q
  {
    if q != [] {
      RemoveFirstAbsent(q[1..], x);
    }
  }

  /** Taking one element out of a sequence without repetition loses that element alone. */
  lemma {:induction false} RemoveFirstMembers<T>(q: seq<T>, x: T)
    requires forall i, j | 0 <= i < j < |q| :: q[i] != q[j]
    ensures x !in RemoveFirst(q, x)
    ensures forall y | y in q && y != x :: y in RemoveFirst(q, x)
    ensures forall y | y in RemoveFirst(q, x) :: y in q
    ensures q != [] && q[0] != x ==> RemoveFirst(q, x) != [] && RemoveFirst(q, x)[0] == q[0]
  {
    if q != [] {
      assert q == [q[0]] + q[1..];
      if q[0] != x { RemoveFirstMembers(q[1..], x); }
    }
  }

  /** And it keeps a strict order. */
  lemma {:induction false} RemoveFirstOrder<T>(q: seq<T>, x: T, key: T -> nat)
    requires forall i, j | 0 <= i < j < |q| :: key(q[i]) < key(q[j])
    ensures forall i, j | 0 <= i < j < |RemoveFirst(q, x)| :: key(RemoveFirst(q, x)[i]) < key(RemoveFirst(q, x)[j])
  {
    if q != [] && q[0] != x {
      var rest := RemoveFirst(q[1..], x);
      RemoveFirstOrder(q[1..], x, key);
      RemoveFirstMembers(q[1..], x);
      forall i, j | 0 <= i < j < |rest| + 1 ensures key(([q[0]] + rest)[i]) < key(([q[0]] + rest)[j]) {
        if i == 0 {
          assert rest[j - 1] in rest;
          var k :| 0 <= k < |q[1..]| && q[1..][k] == rest[j - 1];
          assert q[k + 1] == rest[j - 1];
        }
      }
    }
  }
}
