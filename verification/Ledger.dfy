/** The hub's book-keeping for one session: entries of the `streams` map against the
    `streams_open` gauge. Five places in the code touch the pair, in four tasks. */
module Ledger {
  import opened Wire
  import opened Stream
  import opened Tunnel

  /** What the gauge law depends on: the shared record and how far each accept got. */
  datatype Book = Book(h: HubShared, pcs: map<Sid, AcceptPc>)

  function BookOf(m: Session): Book {
    Book(m.shared, map x | x in m.conns :: m.conns[x].accept)
  }

  /** Entries inserted whose increment is still to come. */
  function Uncounted(b: Book): set<Sid> {
    set x | x in b.pcs && b.pcs[x].Registered?
  }

  /** Entries dropped by closing the session and never subtracted from the gauge. */
  function Leaked(b: Book): set<Sid> {
    set x | x in b.h.removed && b.h.removed[x].BySessionClose? && !(x in b.pcs && b.pcs[x].RolledBack?)
  }

  predicate Sound(b: Book) {
    && b.h.streams <= b.pcs.Keys
    && b.h.removed.Keys <= b.pcs.Keys
    && b.h.streams !! b.h.removed.Keys
    && (forall x :: x in b.pcs && b.pcs[x].Allocated? ==> x !in b.h.streams && x !in b.h.removed)
    && (forall x :: x in b.h.streams ==> !b.pcs[x].RolledBack?)
    && (!b.h.closed ==> forall x :: x in b.h.removed ==> !b.h.removed[x].BySessionClose?)
  }

  predicate Balanced(b: Book) {
    b.h.gauge + |Uncounted(b)| == |b.h.streams| + |Leaked(b)|
  }

  datatype Move =
    | NewId(sid: Sid) | Insert(sid: Sid) | Inc(sid: Sid) | OpenTried(sid: Sid, ok: bool) | Undone(sid: Sid)
    | Taken(sid: Sid, cause: Remover) | Cleared | Marked | Still

  predicate CanMove(b: Book, v: Move) {
    match v
    case NewId(x) => x !in b.pcs
    case Insert(x) => x in b.pcs && b.pcs[x].Allocated?
    case Inc(x) => x in b.pcs && b.pcs[x].Registered?
    case OpenTried(x, _) => x in b.pcs && b.pcs[x].Counted?
    case Undone(x) =>
      && x in b.pcs && b.pcs[x].OpenFailed?
      && (x !in b.h.streams ==> x in b.h.removed && b.h.removed[x].BySessionClose?)
    case Taken(x, cause) => !cause.BySessionClose?
    case _ => true
  }

  function Moved(b: Book, v: Move): Book {
    match v
    case NewId(x) => b.(pcs := b.pcs[x := Allocated])
    case Insert(x) => Book(InsertStream(b.h, x), b.pcs[x := Registered])
    case Inc(x) => Book(CountStream(b.h), b.pcs[x := Counted])
    case OpenTried(x, ok) => b.(pcs := b.pcs[x := if ok then Running else OpenFailed])
    case Undone(x) => Book(RollBackStream(b.h, x), b.pcs[x := RolledBack])
    case Taken(x, cause) => b.(h := RemoveStream(b.h, x, cause))
    case Cleared => b.(h := ClearAll(b.h.(closed := true)))
    case Marked => b.(h := b.h.(closed := true))
    case Still => b
  }

  lemma MoveSound(b: Book, v: Move)
    requires Sound(b) && CanMove(b, v)
    ensures Sound(Moved(b, v))
  {
  }

  lemma InsertBalanced(b: Book, x: Sid)
    requires Sound(b) && Balanced(b) && CanMove(b, Insert(x))
    ensures Balanced(Moved(b, Insert(x)))
  {
    var c := Moved(b, Insert(x));
    assert Uncounted(c) == Uncounted(b) + {x};
    assert Leaked(c) == Leaked(b);
  }

  lemma IncBalanced(b: Book, x: Sid)
    requires Sound(b) && Balanced(b) && CanMove(b, Inc(x))
    ensures Balanced(Moved(b, Inc(x)))
  {
    var c := Moved(b, Inc(x));
    assert x in Uncounted(b) && Uncounted(c) == Uncounted(b) - {x};
    assert Leaked(c) == Leaked(b);
  }

  lemma UndoneBalanced(b: Book, x: Sid)
    requires Sound(b) && Balanced(b) && CanMove(b, Undone(x))
    ensures Balanced(Moved(b, Undone(x)))
  {
    var c := Moved(b, Undone(x));
    assert Uncounted(c) == Uncounted(b);
    if x in b.h.streams {
      assert Leaked(c) == Leaked(b);
    } else {
      assert x in Leaked(b) && Leaked(c) == Leaked(b) - {x};
    }
  }

  lemma TakenBalanced(b: Book, x: Sid, cause: Remover)
    requires Sound(b) && Balanced(b) && CanMove(b, Taken(x, cause))
    ensures Balanced(Moved(b, Taken(x, cause)))
  {
    var c := Moved(b, Taken(x, cause));
    assert Uncounted(c) == Uncounted(b);
    assert Leaked(c) == Leaked(b);
  }

  lemma ClearedBalanced(b: Book)
    requires Sound(b) && Balanced(b)
    ensures Balanced(Moved(b, Cleared))
  {
    var c := Moved(b, Cleared);
    assert Uncounted(c) == Uncounted(b);
    assert Leaked(c) == Leaked(b) + b.h.streams;
    assert Leaked(b) !! b.h.streams;
  }

  lemma MoveBalanced(b: Book, v: Move)
    requires Sound(b) && Balanced(b) && CanMove(b, v)
    ensures Balanced(Moved(b, v))
  {
    match v
    case Insert(x) => InsertBalanced(b, x);
    case Inc(x) => IncBalanced(b, x);
    case Undone(x) => UndoneBalanced(b, x);
    case Taken(x, cause) => TakenBalanced(b, x, cause);
    case Cleared => ClearedBalanced(b);
    case _ =>
      var c := Moved(b, v);
      assert Uncounted(c) == Uncounted(b);
      assert Leaked(c) == Leaked(b);
  }
}
