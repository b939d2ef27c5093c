/** One connection with reentrant transactions: nested uses join the outer one. */
module Transactions {

  /** Code that runs against the connection: writes, nested transactions, exceptions, and handlers that swallow them. */
  datatype Script<!T> =
    | Write(f: T -> T)
    | Raise
    | Then(first: Script<T>, second: Script<T>)
    | Transaction(body: Script<T>)
    | Swallow(body: Script<T>)

  // ---- what a script means ----

  /** Within an open transaction: what the connection sees afterwards, and whether no exception escapes. */
  function Inside<T>(s: Script<T>, w: T): (T, bool) {
    match s
    case Write(f) => (f(w), true)
    case Raise => (w, false)
    case Then(a, b) => var (w1, ok) := Inside(a, w); if ok then Inside(b, w1) else (w1, false)
    case Transaction(body) => Inside(body, w)
    case Swallow(body) => (Inside(body, w).0, true)
  }

  /** With no transaction open: every write commits by itself, a transaction commits all of its writes or none. */
  function Outside<T>(s: Script<T>, d: T): (T, bool) {
    match s
    case Write(f) => (f(d), true)
    case Raise => (d, false)
    case Then(a, b) => var (d1, ok) := Outside(a, d); if ok then Outside(b, d1) else (d1, false)
    case Transaction(body) => var (w, ok) := Inside(body, d); if ok then (w, true) else (d, false)
    case Swallow(body) => (Outside(body, d).0, true)
  }

  class Database<T> {
    /** What is committed, what this connection sees, and how many transactions are open. */
    var durable: T
    var working: T
    var depth: nat

    constructor (initial: T)
      ensures depth == 0 && durable == working == initial
    {
      durable, working, depth := initial, initial, 0;
    }

    /** Outside a transaction the connection sees what is committed. */
    ghost predicate Valid()
      reads this
    {
      depth == 0 ==> working == durable
    }

    method Enter()
      requires Valid()
      modifies this`depth
      ensures Valid() && depth == old(depth) + 1
    {
      depth := depth + 1;
    }

    /** Leaves one level; only the outermost one commits, or rolls back if an exception passes through it. */
    method Leave(ok: bool)
      requires depth > 0
      modifies this
      ensures Valid() && depth == old(depth) - 1
      ensures durable == if ok && depth == 0 then old(working) else old(durable)
      ensures working == if !ok && depth == 0 then old(durable) else old(working)
    {
      depth := depth - 1;
      if depth == 0 {
        if ok {
          durable := working;
        } else {
          working := durable;
        }
      }
    }

    /** One statement; outside a transaction it commits at once. */
    method Execute(w: T)
      requires Valid()
      modifies this`working, this`durable
      ensures Valid() && working == w
      ensures durable == if depth == 0 then w else old(durable)
    {
      working := w;
      if depth == 0 {
        durable := w;
      }
    }

    /** Runs a script; its depth counter bookkeeping does exactly what the script means. */
    method Run(s: Script<T>) returns (ok: bool)
      requires Valid()
      modifies this
      ensures Valid() && depth == old(depth)
      ensures depth == 0 ==> (durable, ok) == Outside(s, old(durable))
      ensures depth > 0 ==> durable == old(durable) && (working, ok) == Inside(s, old(working))
      decreases s
    {
      match s {
        case Write(f) =>
          Execute(f(working));
          ok := true;
        case Raise =>
          ok := false;
        case Then(a, b) =>
          ok := Run(a);
          if ok {
            ok := Run(b);
          }
        case Transaction(body) =>
          Enter();
          ok := Run(body);
          Leave(ok);
        case Swallow(body) =>
          var _ := Run(body);
          ok := true;
      }
    }
  }

  // ---- nesting ----

  /** The script without its transaction brackets. */
  function Flat<T>(s: Script<T>): Script<T> {
    match s
    case Then(a, b) => Then(Flat(a), Flat(b))
    case Transaction(body) => Flat(body)
    case Swallow(body) => Swallow(Flat(body))
    case _ => s
  }

  /** Inner brackets do nothing: nested transactions join the outer one and are no savepoints. */
  lemma {:induction false} NestingIsFlat<T>(s: Script<T>, w: T)
    ensures Inside(s, w) == Inside(Flat(s), w)
  {
    match s
    case Then(a, b) =>
      NestingIsFlat(a, w);
      NestingIsFlat(b, Inside(a, w).0);
    case Transaction(body) => NestingIsFlat(body, w);
    case Swallow(body) => NestingIsFlat(body, w);
    case _ =>
  }

  function Nested<T>(s: Script<T>, levels: nat): Script<T> {
    if levels == 0 then s else Transaction(Nested(s, levels - 1))
  }

  lemma {:induction false} NestedInside<T>(s: Script<T>, levels: nat, w: T)
    ensures Inside(Nested(s, levels), w) == Inside(s, w)
  {
    if levels > 0 {
      NestedInside(s, levels - 1, w);
    }
  }

  /** Under any nesting a transaction is all or nothing: the store changes to what the whole body makes of it if no
      exception escapes, and not at all if one propagates through every level. */
  lemma AllOrNothing<T>(s: Script<T>, levels: nat, d: T)
    requires levels > 0
    ensures var (after, ok) := Outside(Nested(s, levels), d);
      && ok == Inside(Flat(s), d).1
      && after == if ok then Inside(Flat(s), d).0 else d
  {
    NestedInside(s, levels - 1, d);
    NestingIsFlat(s, d);
  }

  /** What the bracket is for: without it, the writes before an exception stay. And what it is not for: an exception
      that is swallowed inside the outer transaction leaves the writes of the failed inner one in place. */
  lemma BracketsMatter(f: int -> int, d: int)
    requires f(d) != d
    ensures Outside(Then(Write(f), Raise), d) == (f(d), false)
    ensures Outside(Transaction(Then(Write(f), Raise)), d) == (d, false)
    ensures Outside(Transaction(Swallow(Transaction(Then(Write(f), Raise)))), d) == (f(d), true)
  {
    var failing := Then(Write(f), Raise);
    assert Inside(failing, d) == (f(d), false);
    assert Inside(Transaction(failing), d) == (f(d), false);
    assert Inside(Swallow(Transaction(failing)), d) == (f(d), true);
  }
}
